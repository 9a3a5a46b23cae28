/** JavaScript values as the state snapshot sees them, the JSON text they
    serialise to, the errors the modelled code throws or catches, and
    `safeStringify` (src/index.js), which is `JSON.stringify` with a replacer
    that drops browser objects, functions, `_`-prefixed keys and any object
    it has already visited. */
module JsValues {
  import opened Wrappers
  import opened Text

  /** A thrown value. `Thrown(tag)` is whatever object a user hook or Alpine
      throws; `ThrownNull` and `ThrownUndefined` are `throw null` and
      `throw undefined`; `ErrorEvent(e)` is the event the browser hands to a
      window `error` listener when `e` escapes a listener or a timer
      callback; `RejectionEvent(e)` is the event handed to a window
      `unhandledrejection` listener when a promise rejected with `e` has no
      handler (an `async` hook that throws, or any other code on the page). */
  datatype JsError =
    | TypeError(message: string)
    | SyntaxError(message: string)
    | ReferenceError(message: string)
    | Error(message: string)
    | Thrown(tag: nat)
    | ThrownNull
    | ThrownUndefined
    | ErrorEvent(error: JsError)
    | RejectionEvent(reason: JsError)

  /** A thrown value on which reading `.message` itself throws. */
  predicate Nullish(e: JsError)
  {
    e.ThrownNull? || e.ThrownUndefined?
  }

  /** The browser objects the replacer refuses: `HTMLElement`, `Window`,
      `Document` and `Event` instances. */
  datatype HostKind = HTMLElementObject | WindowObject | DocumentObject | EventObject

  /** A value reachable from an Alpine data object. Arrays and objects carry
      an identity `ref`; two occurrences with the same `ref` are the same
      object, so a shared reference or a cycle is a repeated `ref`. */
  datatype JsValue =
    | JUndefined
    | JNull
    | JBool(b: bool)
    | JNum(n: int)
    | JStr(s: string)
    | JBigInt(n: int)
    | JArray(ref: nat, items: seq<JsValue>)
    | JObject(ref: nat, props: seq<Prop>)
    | JFunction
    | JHost(kind: HostKind)

  /** An own property, listed in the object's own-key order. */
  datatype Prop = Prop(name: string, desc: Descriptor)

  /** A property descriptor. Reading an accessor runs its getter, which
      returns a value (`JUndefined` when there is no getter) or throws. */
  datatype Descriptor =
    | DataProp(value: JsValue, writable: bool)
    | AccessorProp(getter: Result<JsValue, JsError>, hasSetter: bool)

  /** The value `JSON.parse` rebuilds from the serialised text. */
  datatype Json = Null | Bool(b: bool) | Num(n: int) | Str(s: string) | Arr(items: seq<Json>) | Obj(members: seq<Member>)

  datatype Member = Member(name: string, value: Json)

  /** An object as Alpine keeps it on an element's data stack. */
  datatype DataObject = DataObject(ref: nat, props: seq<Prop>)

  /** `holder[name]`: a data property's value, or what the getter returns
      or throws. */
  function ReadProp(p: Prop): Result<JsValue, JsError>
  {
    match p.desc
    case DataProp(v, _) => Success(v)
    case AccessorProp(g, _) => g
  }

  function OwnProperty(props: seq<Prop>, name: string): (r: Option<Descriptor>)
    ensures r.Some? <==> exists k :: 0 <= k < |props| && props[k].name == name
  {
    if |props| == 0 then None
    else if props[0].name == name then Some(props[0].desc)
    else
      var r := OwnProperty(props[1..], name);
      assert forall k :: 0 < k < |props| ==> props[k] == props[1..][k - 1];
      r
  }

  function Size(v: JsValue): nat
  {
    match v
    case JArray(_, items) => 1 + ItemsSize(items)
    case JObject(_, props) => 1 + PropsSize(props)
    case _ => 1
  }

  function ItemsSize(items: seq<JsValue>): nat
  {
    if |items| == 0 then 0 else Size(items[0]) + ItemsSize(items[1..])
  }

  function PropsSize(props: seq<Prop>): nat
  {
    if |props| == 0 then 0
    else
      (match props[0].desc
       case DataProp(v, _) => Size(v)
       case AccessorProp(g, _) => if g.Success? then Size(g.value) else 0)
      + PropsSize(props[1..])
  }

  predicate IsPrivateKey(key: string)
  {
    |key| > 0 && key[0] == '_'
  }

  predicate IsContainer(v: JsValue)
  {
    v.JArray? || v.JObject?
  }


  /** What `JSON.stringify` throws when it meets a BigInt. */
  const BigIntError := TypeError("Do not know how to serialize a BigInt")

  /** The replacer returns `undefined` for a browser object, a function, a
      `_`-prefixed key or an object or array it has already visited, and
      `JSON.stringify` itself drops `undefined`. */
  predicate Dropped(key: string, v: JsValue, seen: set<nat>)
  {
    v.JHost? || v.JFunction? || v.JUndefined? || IsPrivateKey(key) || (IsContainer(v) && v.ref in seen)
  }

  /** What the replacer and `JSON.stringify` together make of a value met
      under `key`: `None` where the value is dropped (a property left out,
      `null` in an array), and the set of visited objects afterwards. */
  datatype Visited = Visited(json: Option<Json>, seen: set<nat>)

  datatype VisitedMembers = VisitedMembers(members: seq<Member>, seen: set<nat>)

  datatype VisitedItems = VisitedItems(items: seq<Json>, seen: set<nat>)

  /** A dropped value never throws and leaves the visited set alone; a value
      that is kept is dropped by nothing; a BigInt that is kept throws; only
      a BigInt or something inside an array or object can throw. The
      visited set only grows, and an object that is serialised has been
      added to it. */
  function Visit(key: string, v: JsValue, seen: set<nat>): (r: Result<Visited, JsError>)
    decreases Size(v), 1
    ensures Dropped(key, v, seen) ==> r == Success(Visited(None, seen))
    ensures r.Success? ==> (r.value.json.None? <==> Dropped(key, v, seen))
    ensures r.Success? ==> seen <= r.value.seen
    ensures r.Success? && r.value.json.Some? && IsContainer(v) ==> v.ref in r.value.seen
    ensures v.JBigInt? && !IsPrivateKey(key) ==> r == Failure(BigIntError)
    ensures r.Failure? ==> v.JBigInt? || IsContainer(v)
  {
    if v.JHost? || v.JFunction? then Success(Visited(None, seen))
    else if IsPrivateKey(key) then Success(Visited(None, seen))
    else
      match v
      case JArray(ref, items) =>
        if ref in seen then Success(Visited(None, seen))
        else
          (match VisitItems(items, 0, seen + {ref})
           case Failure(e) => Failure(e)
           case Success(r) => Success(Visited(Some(Arr(r.items)), r.seen)))
      case JObject(ref, props) =>
        if ref in seen then Success(Visited(None, seen))
        else
          (match VisitProps(props, seen + {ref})
           case Failure(e) => Failure(e)
           case Success(r) => Success(Visited(Some(Obj(r.members)), r.seen)))
      case JUndefined => Success(Visited(None, seen))
      case JNull => Success(Visited(Some(Null), seen))
      case JBool(b) => Success(Visited(Some(Bool(b)), seen))
      case JNum(n) => Success(Visited(Some(Num(n)), seen))
      case JStr(s) => Success(Visited(Some(Str(s)), seen))
      case JBigInt(_) => Failure(BigIntError)
  }

  /** An object's properties in order: each is read (running its getter)
      before the replacer sees its key; a dropped value leaves its key out;
      the first throw ends the serialisation. */
  function VisitProps(props: seq<Prop>, seen: set<nat>): (r: Result<VisitedMembers, JsError>)
    decreases PropsSize(props), 2
    ensures r.Success? ==> seen <= r.value.seen && |r.value.members| <= |props|
  {
    if |props| == 0 then Success(VisitedMembers([], seen))
    else
      match ReadProp(props[0])
      case Failure(e) => Failure(e)
      case Success(v) =>
        match Visit(props[0].name, v, seen)
        case Failure(e) => Failure(e)
        case Success(first) =>
          match VisitProps(props[1..], first.seen)
          case Failure(e) => Failure(e)
          case Success(rest) =>
            match first.json
            case None => Success(rest)
            case Some(j) => Success(VisitedMembers([Member(props[0].name, j)] + rest.members, rest.seen))
  }

  /** An array's items in order, under the keys "0", "1", ...; a dropped
      item becomes `null`, so the array keeps its length; the first throw
      ends the serialisation. */
  function VisitItems(items: seq<JsValue>, index: nat, seen: set<nat>): (r: Result<VisitedItems, JsError>)
    decreases ItemsSize(items), 2
    ensures r.Success? ==> seen <= r.value.seen && |r.value.items| == |items|
  {
    if |items| == 0 then Success(VisitedItems([], seen))
    else
      match Visit(NatToString(index), items[0], seen)
      case Failure(e) => Failure(e)
      case Success(first) =>
        match VisitItems(items[1..], index + 1, first.seen)
        case Failure(e) => Failure(e)
        case Success(rest) =>
          Success(VisitedItems([if first.json.Some? then first.json.value else Null] + rest.items, rest.seen))
  }

  /** `safeStringify(obj)` for a data object, read back through
      `JSON.parse`: the value rebuilt from the text, `None` where
      `JSON.stringify` returns `undefined`, or the error it throws. The
      replacer runs first on the root under the empty key with nothing
      visited yet. */
  function SafeStringify(obj: DataObject): Result<Option<Json>, JsError>
  {
    match Visit("", JObject(obj.ref, obj.props), {})
    case Failure(e) => Failure(e)
    case Success(r) => Success(r.json)
  }
}
