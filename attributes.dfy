/** Decoding of item attributes from their wire form (`parseAttributes`).

    On the wire an attribute value is an object keyed by a type tag: `S`, `N`
    or `B` hold one string, `SS`, `NS` or `BS` a list of strings. The decoder
    probes the tags in a fixed order and keeps the first one whose payload has
    the right shape; a field it cannot decode is dropped without an error. */
module Attributes {
  import opened Wrappers
  import opened Json

  datatype AttrType = S | N | B | SS | NS | BS {
    predicate IsSet() { SS? || NS? || BS? }
  }

  function Tag(t: AttrType): string {
    match t
    case S => "S"
    case N => "N"
    case B => "B"
    case SS => "SS"
    case NS => "NS"
    case BS => "BS"
  }

  /** The order in which the decoder probes the tags. */
  const Priority: seq<AttrType> := [S, N, B, SS, NS, BS]

  /** A decoded attribute. A scalar carries `value` and no set members; a set
      carries its members and an empty `value`. */
  datatype Attribute = Attribute(attrType: AttrType, name: string, value: string, setValues: seq<string>)

  /** A decoded item: field name to attribute. */
  type Item = map<string, Attribute>

  /** Whether the wire object `o` carries tag `t` with a payload of the shape
      the decoder accepts: a string for a scalar type, a list for a set type. */
  predicate Carries(o: map<string, Value>, t: AttrType) {
    Tag(t) in o && (if t.IsSet() then o[Tag(t)].Array? else o[Tag(t)].Str?)
  }

  lemma EveryTypeHasPriority()
    ensures forall t :: t in Priority
  {
    forall t: AttrType ensures t in Priority {
      match t
      case S => assert Priority[0] == t;
      case N => assert Priority[1] == t;
      case B => assert Priority[2] == t;
      case SS => assert Priority[3] == t;
      case NS => assert Priority[4] == t;
      case BS => assert Priority[5] == t;
    }
  }

  /** The position in `tags` of the first type that `o` carries. */
  function FirstCarried(o: map<string, Value>, tags: seq<AttrType>): (r: Option<nat>)
    ensures r.Some? ==> r.value < |tags| && Carries(o, tags[r.value])
    ensures r.Some? ==> forall j :: 0 <= j < r.value ==> !Carries(o, tags[j])
    ensures r.None? ==> forall t :: t in tags ==> !Carries(o, t)
  {
    if tags == [] then None
    else if Carries(o, tags[0]) then Some(0)
    else match FirstCarried(o, tags[1..])
      case None => None
      case Some(i) => Some(i + 1)
  }

  /** The members of a set: the wire list in order, with every element that
      is not a string read as "" (the zero value the slot was made with). */
  function SetMembers(vals: seq<Value>): (r: seq<string>)
    ensures |r| == |vals|
    ensures forall i :: 0 <= i < |vals| ==> r[i] == MustString(vals[i])
  {
    if vals == [] then [] else [MustString(vals[0])] + SetMembers(vals[1..])
  }

  /** The attribute built from a payload of type `t`. */
  function FromPayload(t: AttrType, name: string, payload: Value): Attribute {
    if t.IsSet() then Attribute(t, name, "", SetMembers(if payload.Array? then payload.elems else []))
    else Attribute(t, name, MustString(payload), [])
  }

  /** Reference decoding of one field: the first carried tag in priority
      order decides the type; a non-object or an object carrying none of
      the tags decodes to nothing. */
  function Decode(name: string, v: Value): (a: Option<Attribute>)
    ensures a.Some? ==> v.Object? && a.value.name == name && Carries(v.fields, a.value.attrType)
    ensures v.Object? && (exists t :: Carries(v.fields, t)) ==> a.Some?
  {
    match v
    case Object(o) =>
      (match FirstCarried(o, Priority)
       case None => EveryTypeHasPriority(); None
       case Some(i) => Some(FromPayload(Priority[i], name, o[Tag(Priority[i])])))
    case _ => None
  }

  /** Reference decoding of a whole item: every field that decodes, and no
      other. */
  function DecodeItem(s: map<string, Value>): Item {
    map k | k in s && Decode(k, s[k]).Some? :: Decode(k, s[k]).value
  }

  /** Fills a set's member list slot by slot, as `make([]string, n)` followed
      by the copy loop does. */
  method CollectSetMembers(vals: seq<Value>) returns (members: seq<string>)
    ensures members == SetMembers(vals)
  {
    var arry := new string[|vals|](_ => "");
    for i := 0 to |vals|
      invariant forall j :: 0 <= j < i ==> arry[j] == MustString(vals[j])
      invariant forall j :: i <= j < |vals| ==> arry[j] == ""
    {
      if vals[i].Str? {
        arry[i] := vals[i].s;
      }
    }
    members := arry[..];
  }

  /** Decodes one field by probing the tags in turn. */
  method DecodeAttribute(key: string, value: Value) returns (a: Option<Attribute>)
    ensures a == Decode(key, value)
  {
    if !value.Object? {
      return None;
    }
    var v := value.fields;
    if Carries(v, S) {
      a := Some(Attribute(S, key, v["S"].s, []));
      DecodePicksFirstCarried(key, v, 0);
    } else if Carries(v, N) {
      a := Some(Attribute(N, key, v["N"].s, []));
      DecodePicksFirstCarried(key, v, 1);
    } else if Carries(v, B) {
      a := Some(Attribute(B, key, v["B"].s, []));
      DecodePicksFirstCarried(key, v, 2);
    } else if Carries(v, SS) {
      var arry := CollectSetMembers(v["SS"].elems);
      a := Some(Attribute(SS, key, "", arry));
      DecodePicksFirstCarried(key, v, 3);
    } else if Carries(v, NS) {
      var arry := CollectSetMembers(v["NS"].elems);
      a := Some(Attribute(NS, key, "", arry));
      DecodePicksFirstCarried(key, v, 4);
    } else if Carries(v, BS) {
      var arry := CollectSetMembers(v["BS"].elems);
      a := Some(Attribute(BS, key, "", arry));
      DecodePicksFirstCarried(key, v, 5);
    } else {
      a := None;
      DecodeNothingCarried(key, v);
    }
  }

  /** Tag priority: the first type in `Priority` that the wire object
      carries decides the decoded attribute, whatever later tags it carries. */
  lemma DecodePicksFirstCarried(name: string, o: map<string, Value>, i: nat)
    requires i < |Priority| && Carries(o, Priority[i])
    requires forall j :: 0 <= j < i ==> !Carries(o, Priority[j])
    ensures Decode(name, Object(o)) == Some(FromPayload(Priority[i], name, o[Tag(Priority[i])]))
  {
    var r := FirstCarried(o, Priority);
    assert r.Some? && r.value == i;
  }

  /** An object that carries none of the six tags decodes to nothing. */
  lemma DecodeNothingCarried(name: string, o: map<string, Value>)
    requires forall j :: 0 <= j < |Priority| ==> !Carries(o, Priority[j])
    ensures Decode(name, Object(o)) == None
  {
  }

  /** A field whose value is an object with a string `S` decodes to a string
      attribute named after the field and holding that string, whatever
      else the object carries. */
  lemma DecodeStringTag(name: string, o: map<string, Value>)
    requires "S" in o && o["S"].Str?
    ensures Decode(name, Object(o)) == Some(Attribute(S, name, o["S"].s, []))
  {
    DecodePicksFirstCarried(name, o, 0);
  }

  /** A decoded set keeps the wire list's length and order; an element that
      is not a string becomes "" at its position. */
  lemma DecodeSetKeepsLength(name: string, o: map<string, Value>, a: Attribute)
    requires Decode(name, Object(o)) == Some(a) && a.attrType.IsSet()
    ensures Tag(a.attrType) in o && o[Tag(a.attrType)].Array?
    ensures |a.setValues| == |o[Tag(a.attrType)].elems| && a.value == ""
    ensures forall i :: 0 <= i < |a.setValues| ==> a.setValues[i] == MustString(o[Tag(a.attrType)].elems[i])
  {
  }

  /** Decoding an item never fails: it keeps exactly the fields that decode,
      each under its own name, and drops fields that are not objects. */
  lemma DecodeItemDomain(s: map<string, Value>)
    ensures DecodeItem(s).Keys <= s.Keys
    ensures forall k :: k in s && !s[k].Object? ==> k !in DecodeItem(s)
    ensures forall k :: k in s && s[k].Object? && (forall t :: !Carries(s[k].fields, t)) ==> k !in DecodeItem(s)
    ensures forall k :: k in DecodeItem(s) ==> DecodeItem(s)[k].name == k && Carries(s[k].fields, DecodeItem(s)[k].attrType)
  {
  }

  /** Decodes every field of an item; the iteration order over the map does
      not matter. */
  method ParseAttributes(s: map<string, Value>) returns (results: Item)
    ensures results == DecodeItem(s)
  {
    results := map[];
    var todo := s.Keys;
    while todo != {}
      invariant todo <= s.Keys
      invariant forall k :: k in results <==> k in s && k !in todo && Decode(k, s[k]).Some?
      invariant forall k :: k in results ==> k in s && Decode(k, s[k]) == Some(results[k])
      decreases todo
    {
      var key :| key in todo;
      var a := DecodeAttribute(key, s[key]);
      if a.Some? {
        results := results[key := a.value];
      }
      todo := todo - {key};
    }
  }
}
