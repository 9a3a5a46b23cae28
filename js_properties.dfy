/** What `safeStringify` guarantees about the snapshot it produces. */
module JsProperties {
  import opened Wrappers
  import opened Text
  import opened JsValues

  /** No member anywhere in the value has a `_`-prefixed name. */
  predicate NoPrivateKeys(j: Json)
  {
    match j
    case Arr(items) => forall k :: 0 <= k < |items| ==> NoPrivateKeys(items[k])
    case Obj(ms) => forall k :: 0 <= k < |ms| ==> !IsPrivateKey(ms[k].name) && NoPrivateKeys(ms[k].value)
    case _ => true
  }

  lemma IndexKeyIsPublic(index: nat)
    ensures !IsPrivateKey(NatToString(index))
  {
    var s := NatToString(index);
    assert IsDigit(s[0]);
  }

  /** The replacer drops every `_`-prefixed key at every depth. */
  lemma {:induction false} VisitHasNoPrivateKeys(key: string, v: JsValue, seen: set<nat>)
    ensures var r := Visit(key, v, seen);
      r.Success? && r.value.json.Some? ==> NoPrivateKeys(r.value.json.value)
    decreases Size(v), 1
  {
    if v.JHost? || v.JFunction? || IsPrivateKey(key) {
    } else {
      match v
      case JArray(ref, items) =>
        if ref !in seen {
          VisitItemsHaveNoPrivateKeys(items, 0, seen + {ref});
        }
      case JObject(ref, props) =>
        if ref !in seen {
          VisitPropsHaveNoPrivateKeys(props, seen + {ref});
        }
      case _ =>
    }
  }

  lemma {:induction false} VisitPropsHaveNoPrivateKeys(props: seq<Prop>, seen: set<nat>)
    ensures VisitProps(props, seen).Success? ==> NoPrivateKeys(Obj(VisitProps(props, seen).value.members))
    decreases PropsSize(props), 2
  {
    if |props| > 0 && ReadProp(props[0]).Success? {
      var v := ReadProp(props[0]).value;
      VisitHasNoPrivateKeys(props[0].name, v, seen);
      var f := Visit(props[0].name, v, seen);
      if f.Success? {
        VisitPropsHaveNoPrivateKeys(props[1..], f.value.seen);
        var rest := VisitProps(props[1..], f.value.seen);
        if rest.Success? && f.value.json.Some? {
          var ms := [Member(props[0].name, f.value.json.value)] + rest.value.members;
          assert forall k :: 0 < k < |ms| ==> ms[k] == rest.value.members[k - 1];
        }
      }
    }
  }

  lemma {:induction false} VisitItemsHaveNoPrivateKeys(items: seq<JsValue>, index: nat, seen: set<nat>)
    ensures VisitItems(items, index, seen).Success? ==> NoPrivateKeys(Arr(VisitItems(items, index, seen).value.items))
    decreases ItemsSize(items), 2
  {
    if |items| > 0 {
      VisitHasNoPrivateKeys(NatToString(index), items[0], seen);
      var f := Visit(NatToString(index), items[0], seen);
      if f.Success? {
        VisitItemsHaveNoPrivateKeys(items[1..], index + 1, f.value.seen);
        var rest := VisitItems(items[1..], index + 1, f.value.seen);
        if rest.Success? {
          var js := [if f.value.json.Some? then f.value.json.value else Null] + rest.value.items;
          assert forall k :: 0 < k < |js| ==> js[k] == rest.value.items[k - 1];
        }
      }
    }
  }

  /** Whenever the snapshot of a data object does not throw, it is an
      object and carries no `_`-prefixed key at any depth. */
  lemma SnapshotIsPublicObject(obj: DataObject)
    ensures SafeStringify(obj).Success? ==>
      SafeStringify(obj).value.Some? && SafeStringify(obj).value.value.Obj? && NoPrivateKeys(SafeStringify(obj).value.value)
  {
    VisitHasNoPrivateKeys("", JObject(obj.ref, obj.props), {});
  }

  /** A second property holding an object already serialised under the
      first is left out: shared references are written once. */
  lemma SharedReferenceWrittenOnce(a: string, b: string, x: JsValue, wa: bool, wb: bool, seen: set<nat>)
    requires IsContainer(x) && x.ref !in seen && !IsPrivateKey(a)
    ensures var r := VisitProps([Prop(a, DataProp(x, wa)), Prop(b, DataProp(x, wb))], seen);
      (r.Success? <==> Visit(a, x, seen).Success?)
      && (r.Success? ==> r.value.members == [Member(a, Visit(a, x, seen).value.json.value)])
  {
    var props := [Prop(a, DataProp(x, wa)), Prop(b, DataProp(x, wb))];
    var f := Visit(a, x, seen);
    if f.Success? {
      var first := f.value;
      assert first.json.Some?;
      var t := [Prop(b, DataProp(x, wb))];
      assert props[1..] == t && t[1..] == [];
      assert Visit(b, x, first.seen) == Success(Visited(None, first.seen));
      assert VisitProps(t[1..], first.seen) == Success(VisitedMembers([], first.seen));
      assert VisitProps(t, first.seen) == Success(VisitedMembers([], first.seen));
      assert VisitProps(props, seen) == Success(VisitedMembers([Member(a, first.json.value)] + [], first.seen));
    }
  }

  /** A property that points back at the object being serialised (a cycle)
      is left out. */
  lemma CycleIsCut(ref: nat, key: string, inner: seq<Prop>, w: bool)
    requires !IsPrivateKey(key)
    ensures SafeStringify(DataObject(ref, [Prop(key, DataProp(JObject(ref, inner), w))])) == Success(Some(Obj([])))
  {
    var props := [Prop(key, DataProp(JObject(ref, inner), w))];
    assert Visit(key, JObject(ref, inner), {} + {ref}) == Success(Visited(None, {} + {ref}));
    assert props[1..] == [];
    assert VisitProps(props, {} + {ref}) == Success(VisitedMembers([], {} + {ref}));
  }

  // ----- what makes the snapshot throw -----

  /** A getter that throws aborts the snapshot, whatever the property's
      name: the value is read before the replacer sees the key. */
  lemma ThrowingGetterAbortsSnapshot(ref: nat, name: string, e: JsError, hasSetter: bool, rest: seq<Prop>)
    ensures SafeStringify(DataObject(ref, [Prop(name, AccessorProp(Failure(e), hasSetter))] + rest)) == Failure(e)
  {
    var props := [Prop(name, AccessorProp(Failure(e), hasSetter))] + rest;
    assert props[0] == Prop(name, AccessorProp(Failure(e), hasSetter));
    assert VisitProps(props, {} + {ref}) == Failure(e);
  }

  /** A BigInt under a public key aborts the snapshot with a TypeError; under
      a `_`-prefixed key the replacer drops it first. */
  lemma BigIntAbortsSnapshot(ref: nat, key: string, n: int, w: bool)
    ensures SafeStringify(DataObject(ref, [Prop(key, DataProp(JBigInt(n), w))])) ==
      if IsPrivateKey(key) then Success(Some(Obj([]))) else Failure(BigIntError)
  {
    var props := [Prop(key, DataProp(JBigInt(n), w))];
    assert props[1..] == [];
    if IsPrivateKey(key) {
      assert VisitProps(props, {} + {ref}) == Success(VisitedMembers([], {} + {ref}));
    } else {
      assert VisitProps(props, {} + {ref}) == Failure(BigIntError);
    }
  }

  /** No BigInt and no getter that throws anywhere inside the value. */
  predicate CannotThrow(v: JsValue)
  {
    match v
    case JBigInt(_) => false
    case JArray(_, items) => forall k :: 0 <= k < |items| ==> CannotThrow(items[k])
    case JObject(_, props) => forall k :: 0 <= k < |props| ==> PropCannotThrow(props[k].desc)
    case _ => true
  }

  predicate PropCannotThrow(d: Descriptor)
  {
    match d
    case DataProp(x, _) => CannotThrow(x)
    case AccessorProp(g, _) => g.Success? && CannotThrow(g.value)
  }

  /** Only a BigInt or a throwing getter can make the serialisation throw. */
  lemma {:induction false} CannotThrowSerialises(key: string, v: JsValue, seen: set<nat>)
    requires CannotThrow(v)
    ensures Visit(key, v, seen).Success?
    decreases Size(v), 1
  {
    if !Dropped(key, v, seen) {
      match v
      case JArray(ref, items) =>
        CannotThrowItemsSerialise(items, 0, seen + {ref});
      case JObject(ref, props) =>
        CannotThrowPropsSerialise(props, seen + {ref});
      case _ =>
    }
  }

  lemma {:induction false} CannotThrowPropsSerialise(props: seq<Prop>, seen: set<nat>)
    requires forall k :: 0 <= k < |props| ==> PropCannotThrow(props[k].desc)
    ensures VisitProps(props, seen).Success?
    decreases PropsSize(props), 2
  {
    if |props| > 0 {
      var v := ReadProp(props[0]).value;
      CannotThrowSerialises(props[0].name, v, seen);
      var first := Visit(props[0].name, v, seen).value;
      assert forall k :: 0 <= k < |props[1..]| ==> props[1..][k] == props[k + 1];
      CannotThrowPropsSerialise(props[1..], first.seen);
    }
  }

  lemma {:induction false} CannotThrowItemsSerialise(items: seq<JsValue>, index: nat, seen: set<nat>)
    requires forall k :: 0 <= k < |items| ==> CannotThrow(items[k])
    ensures VisitItems(items, index, seen).Success?
    decreases ItemsSize(items), 2
  {
    if |items| > 0 {
      CannotThrowSerialises(NatToString(index), items[0], seen);
      var first := Visit(NatToString(index), items[0], seen).value;
      assert forall k :: 0 <= k < |items[1..]| ==> items[1..][k] == items[k + 1];
      CannotThrowItemsSerialise(items[1..], index + 1, first.seen);
    }
  }

  /** The snapshot of a data object without BigInts or throwing getters
      never throws. */
  lemma SnapshotCannotThrow(obj: DataObject)
    requires forall k :: 0 <= k < |obj.props| ==> PropCannotThrow(obj.props[k].desc)
    ensures SafeStringify(obj).Success?
  {
    CannotThrowPropsSerialise(obj.props, {} + {obj.ref});
  }

  // ----- round trip for plain data -----

  function JsonSize(j: Json): nat
  {
    match j
    case Arr(items) => 1 + JsonItemsSize(items)
    case Obj(ms) => 1 + MembersSize(ms)
    case _ => 1
  }

  function JsonItemsSize(items: seq<Json>): nat
  {
    if |items| == 0 then 0 else JsonSize(items[0]) + JsonItemsSize(items[1..])
  }

  function MembersSize(ms: seq<Member>): nat
  {
    if |ms| == 0 then 0 else JsonSize(ms[0].value) + MembersSize(ms[1..])
  }

  datatype Embedded = Embedded(value: JsValue, next: nat)

  datatype EmbeddedItems = EmbeddedItems(values: seq<JsValue>, next: nat)

  datatype EmbeddedProps = EmbeddedProps(props: seq<Prop>, next: nat)

  /** The plain JavaScript value `JSON.parse` would build from `j`, with
      fresh identities `next`, `next + 1`, ... for its arrays and objects. */
  function Embed(j: Json, next: nat): (r: Embedded)
    decreases JsonSize(j), 1
    ensures r.next >= next
  {
    match j
    case Null => Embedded(JNull, next)
    case Bool(b) => Embedded(JBool(b), next)
    case Num(n) => Embedded(JNum(n), next)
    case Str(s) => Embedded(JStr(s), next)
    case Arr(items) =>
      var r := EmbedItems(items, next + 1);
      Embedded(JArray(next, r.values), r.next)
    case Obj(ms) =>
      var r := EmbedMembers(ms, next + 1);
      Embedded(JObject(next, r.props), r.next)
  }

  function EmbedItems(items: seq<Json>, next: nat): (r: EmbeddedItems)
    decreases JsonItemsSize(items), 2
    ensures r.next >= next
  {
    if |items| == 0 then EmbeddedItems([], next)
    else
      var first := Embed(items[0], next);
      var rest := EmbedItems(items[1..], first.next);
      EmbeddedItems([first.value] + rest.values, rest.next)
  }

  function EmbedMembers(ms: seq<Member>, next: nat): (r: EmbeddedProps)
    decreases MembersSize(ms), 2
    ensures r.next >= next
  {
    if |ms| == 0 then EmbeddedProps([], next)
    else
      var first := Embed(ms[0].value, next);
      var rest := EmbedMembers(ms[1..], first.next);
      EmbeddedProps([Prop(ms[0].name, DataProp(first.value, true))] + rest.props, rest.next)
  }

  function Range(lo: nat, hi: nat): (r: set<nat>)
    decreases hi - lo
    ensures forall i :: i in r <==> lo <= i < hi
  {
    if lo >= hi then {} else {lo} + Range(lo + 1, hi)
  }

  predicate Below(seen: set<nat>, bound: nat)
  {
    forall x :: x in seen ==> x < bound
  }

  lemma RangeSplit(lo: nat, mid: nat, hi: nat)
    requires lo <= mid <= hi
    ensures Range(lo, mid) + Range(mid, hi) == Range(lo, hi)
  {
  }

  /** Serialising plain data (no functions, no browser objects, no
      `_`-prefixed keys, no shared objects) gives back exactly that data. */
  lemma {:induction false} StringifyEmbedded(key: string, j: Json, next: nat, seen: set<nat>)
    requires !IsPrivateKey(key) && NoPrivateKeys(j) && Below(seen, next)
    ensures Visit(key, Embed(j, next).value, seen) == Success(Visited(Some(j), seen + Range(next, Embed(j, next).next)))
    decreases JsonSize(j), 1
  {
    match j
    case Arr(items) =>
      var r := EmbedItems(items, next + 1);
      assert Below(seen + {next}, next + 1);
      StringifyEmbeddedItems(items, 0, next + 1, seen + {next});
      RangeSplit(next, next + 1, r.next);
      assert Range(next, next + 1) == {next};
      assert seen + {next} + Range(next + 1, r.next) == seen + Range(next, r.next);
      assert VisitItems(r.values, 0, seen + {next}) == Success(VisitedItems(items, seen + Range(next, r.next)));
    case Obj(ms) =>
      var r := EmbedMembers(ms, next + 1);
      assert Below(seen + {next}, next + 1);
      StringifyEmbeddedMembers(ms, next + 1, seen + {next});
      RangeSplit(next, next + 1, r.next);
      assert Range(next, next + 1) == {next};
      assert seen + {next} + Range(next + 1, r.next) == seen + Range(next, r.next);
      assert VisitProps(r.props, seen + {next}) == Success(VisitedMembers(ms, seen + Range(next, r.next)));
    case _ =>
      assert Range(next, next) == {};
      assert seen + Range(next, next) == seen;
  }

  lemma {:induction false} StringifyEmbeddedItems(items: seq<Json>, index: nat, next: nat, seen: set<nat>)
    requires forall k :: 0 <= k < |items| ==> NoPrivateKeys(items[k])
    requires Below(seen, next)
    ensures VisitItems(EmbedItems(items, next).values, index, seen) ==
      Success(VisitedItems(items, seen + Range(next, EmbedItems(items, next).next)))
    decreases JsonItemsSize(items), 2
  {
    if |items| == 0 {
      assert Range(next, next) == {};
      assert seen + Range(next, next) == seen;
    } else {
      var first := Embed(items[0], next);
      var rest := EmbedItems(items[1..], first.next);
      var values := [first.value] + rest.values;
      assert values[0] == first.value && values[1..] == rest.values;
      IndexKeyIsPublic(index);
      StringifyEmbedded(NatToString(index), items[0], next, seen);
      var seen1 := seen + Range(next, first.next);
      assert Visit(NatToString(index), values[0], seen) == Success(Visited(Some(items[0]), seen1));
      assert Below(seen1, first.next);
      StringifyEmbeddedItems(items[1..], index + 1, first.next, seen1);
      var seen2 := seen1 + Range(first.next, rest.next);
      assert VisitItems(values[1..], index + 1, seen1) == Success(VisitedItems(items[1..], seen2));
      RangeSplit(next, first.next, rest.next);
      assert seen2 == seen + Range(next, rest.next);
      assert [items[0]] + items[1..] == items;
      assert VisitItems(values, index, seen) == Success(VisitedItems([items[0]] + items[1..], seen2));
    }
  }

  lemma {:induction false} StringifyEmbeddedMembers(ms: seq<Member>, next: nat, seen: set<nat>)
    requires forall k :: 0 <= k < |ms| ==> !IsPrivateKey(ms[k].name) && NoPrivateKeys(ms[k].value)
    requires Below(seen, next)
    ensures VisitProps(EmbedMembers(ms, next).props, seen) ==
      Success(VisitedMembers(ms, seen + Range(next, EmbedMembers(ms, next).next)))
    decreases MembersSize(ms), 2
  {
    if |ms| == 0 {
      assert Range(next, next) == {};
      assert seen + Range(next, next) == seen;
    } else {
      var first := Embed(ms[0].value, next);
      var rest := EmbedMembers(ms[1..], first.next);
      var props := [Prop(ms[0].name, DataProp(first.value, true))] + rest.props;
      assert props[0] == Prop(ms[0].name, DataProp(first.value, true)) && props[1..] == rest.props;
      StringifyEmbedded(ms[0].name, ms[0].value, next, seen);
      var seen1 := seen + Range(next, first.next);
      assert ReadProp(props[0]) == Success(first.value);
      assert Visit(ms[0].name, first.value, seen) == Success(Visited(Some(ms[0].value), seen1));
      assert Below(seen1, first.next);
      StringifyEmbeddedMembers(ms[1..], first.next, seen1);
      var seen2 := seen1 + Range(first.next, rest.next);
      assert VisitProps(props[1..], seen1) == Success(VisitedMembers(ms[1..], seen2));
      RangeSplit(next, first.next, rest.next);
      assert seen2 == seen + Range(next, rest.next);
      assert [ms[0]] + ms[1..] == ms;
      assert VisitProps(props, seen) == Success(VisitedMembers([Member(ms[0].name, ms[0].value)] + ms[1..], seen2));
    }
  }

  /** The snapshot of a data object built from plain data is that data. */
  lemma SnapshotOfPlainData(ms: seq<Member>, ref: nat)
    requires forall k :: 0 <= k < |ms| ==> !IsPrivateKey(ms[k].name) && NoPrivateKeys(ms[k].value)
    ensures SafeStringify(DataObject(ref, EmbedMembers(ms, ref + 1).props)) == Success(Some(Obj(ms)))
  {
    var props := EmbedMembers(ms, ref + 1).props;
    assert Below({} + {ref}, ref + 1);
    StringifyEmbeddedMembers(ms, ref + 1, {} + {ref});
    assert Visit("", JObject(ref, props), {}).value.json == Some(Obj(VisitProps(props, {} + {ref}).value.members));
  }
}
