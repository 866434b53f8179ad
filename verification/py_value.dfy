/** The Python values the agent handles: JSON documents as `json.loads` and
    `request.json()` produce them, the exceptions the agent's code can raise
    on them, and the few operations it applies (`v[k]`, `v.get(k, d)`, `in`,
    `len`, `v[0]`, and `str(v)` inside an f-string). */
module PyValue {
  import opened Optional
  import opened PyText
  import opened PyRepr

  /** A JSON value. Objects keep their members in order, as Python dicts do;
      floating-point numbers are not modelled. */
  datatype Json =
    | JNull
    | JBool(b: bool)
    | JInt(i: int)
    | JString(s: string)
    | JArray(items: seq<Json>)
    | JObject(members: seq<Member>)

  datatype Member = Member(key: string, value: Json)

  /** The exception classes the agent's code lets escape. */
  datatype Fault = KeyError | TypeError | AttributeError | IndexError | DockerException

  /** A Python evaluation: a value, or a raised exception. */
  datatype Result<+T> = Ok(value: T) | Raise(fault: Fault) {

    predicate IsFailure()
    {
      Raise?
    }

    function PropagateFailure<U>(): Result<U>
      requires Raise?
    {
      Raise(fault)
    }

    function Extract(): T
      requires Ok?
    {
      value
    }
  }

  /** The value stored under `k`. A decoded object that repeats a key keeps
      the last one, so the last member with that key is the one found. */
  function Lookup(ms: seq<Member>, k: string): (r: Option<Json>)
    ensures r.Some? <==> exists i :: 0 <= i < |ms| && ms[i].key == k
    ensures r.Some? ==> exists i :: 0 <= i < |ms| && ms[i].key == k && ms[i].value == r.value
                                    && forall j :: i < j < |ms| ==> ms[j].key != k
  {
    if ms == [] then None
    else if ms[|ms| - 1].key == k then Some(ms[|ms| - 1].value)
    else
      var init := ms[..|ms| - 1];
      var r := Lookup(init, k);
      assert r.Some? ==> exists i :: 0 <= i < |ms| && ms[i].key == k && ms[i].value == r.value
                                     && forall j :: i < j < |ms| ==> ms[j].key != k by {
        if r.Some? {
          var i :| 0 <= i < |init| && init[i].key == k && init[i].value == r.value
                   && forall j :: i < j < |init| ==> init[j].key != k;
          assert ms[i] == init[i];
          forall j | i < j < |ms|
            ensures ms[j].key != k
          {
            if j < |init| {
              assert ms[j] == init[j];
            }
          }
        }
      }
      r
  }

  /** `v` is a dict holding the key `k`. */
  predicate Has(v: Json, k: string)
  {
    v.JObject? && Lookup(v.members, k).Some?
  }

  function Field(v: Json, k: string): Json
    requires Has(v, k)
  {
    Lookup(v.members, k).value
  }

  /** No key occurs twice. */
  predicate DistinctKeys(es: seq<Member>)
  {
    forall i, j :: 0 <= i < j < |es| ==> es[i].key != es[j].key
  }

  /** The position of the first member carrying `k`, or -1 when none does. */
  function FirstIndex(ms: seq<Member>, k: string): (r: int)
    ensures -1 <= r < |ms|
  {
    if ms == [] then -1
    else
      var r := FirstIndex(ms[..|ms| - 1], k);
      if r >= 0 then r
      else if ms[|ms| - 1].key == k then |ms| - 1
      else -1
  }

  /** A key has a first position exactly when it is found. */
  lemma {:induction false} FirstIndexFound(ms: seq<Member>, k: string)
    ensures FirstIndex(ms, k) >= 0 <==> Lookup(ms, k).Some?
  {
    if ms != [] {
      var init := ms[..|ms| - 1];
      FirstIndexFound(init, k);
    }
  }

  /** `FirstIndex` is the first position holding the key. */
  lemma {:induction false} FirstIndexIsFirst(ms: seq<Member>, k: string)
    ensures FirstIndex(ms, k) >= 0 ==>
      ms[FirstIndex(ms, k)].key == k && forall j :: 0 <= j < FirstIndex(ms, k) ==> ms[j].key != k
  {
    if ms != [] {
      var init := ms[..|ms| - 1];
      FirstIndexIsFirst(init, k);
      FirstIndexFound(init, k);
      if FirstIndex(init, k) < 0 {
        assert Lookup(init, k).None?;
        assert forall j :: 0 <= j < |init| ==> init[j].key != k;
      }
    }
  }

  lemma FirstIndexSnoc(ms: seq<Member>, x: Member, k: string)
    ensures FirstIndex(ms + [x], k) ==
      if FirstIndex(ms, k) >= 0 then FirstIndex(ms, k) else if k == x.key then |ms| else -1
  {
    assert (ms + [x])[..|ms|] == ms;
  }

  /** Looking a key up after appending `x`: `x` answers for its own key. */
  lemma LookupSnoc(es: seq<Member>, x: Member)
    ensures forall k :: Lookup(es + [x], k) == (if k == x.key then Some(x.value) else Lookup(es, k))
  {
    assert (es + [x])[..|es|] == es;
  }

  /** Appending keeps the keys distinct exactly when the new key is absent. */
  lemma DistinctSnoc(es: seq<Member>, x: Member)
    ensures DistinctKeys(es + [x]) <==> DistinctKeys(es) && Lookup(es, x.key).None?
  {
    var r := es + [x];
    assert forall i :: 0 <= i < |es| ==> r[i] == es[i];
    if DistinctKeys(r) {
      assert forall i :: 0 <= i < |es| ==> es[i].key != x.key by {
        forall i | 0 <= i < |es|
          ensures es[i].key != x.key
        {
          assert r[i].key != r[|es|].key;
        }
      }
    }
  }

  /** `d[m.key] = m.value` on a dict held as its entries: an existing key
      keeps its place and takes the new value, a new key goes at the end. */
  function Insert(es: seq<Member>, m: Member): (r: seq<Member>)
    ensures forall k :: Lookup(r, k) == (if k == m.key then Some(m.value) else Lookup(es, k))
    ensures DistinctKeys(es) ==> DistinctKeys(r)
    ensures forall e :: e in r ==> e in es || e == m
    ensures |r| <= |es| + 1
  {
    if Lookup(es, m.key).None? then
      LookupSnoc(es, m);
      DistinctSnoc(es, m);
      es + [m]
    else
      var init := es[..|es| - 1];
      var last := es[|es| - 1];
      assert es == init + [last];
      LookupSnoc(init, last);
      DistinctSnoc(init, last);
      if last.key == m.key then
        LookupSnoc(init, m);
        DistinctSnoc(init, m);
        init + [m]
      else
        var rest := Insert(init, m);
        LookupSnoc(rest, last);
        DistinctSnoc(rest, last);
        rest + [last]
  }

  /** Where `d[k] = v` puts the key: a new key goes at the end, and an
      existing key stays where it is, so no key moves. */
  lemma {:induction false} InsertPlacement(es: seq<Member>, m: Member)
    ensures Lookup(es, m.key).None? ==> Insert(es, m) == es + [m]
    ensures Lookup(es, m.key).Some? ==>
      |Insert(es, m)| == |es| && forall i :: 0 <= i < |es| ==> Insert(es, m)[i].key == es[i].key
  {
    if Lookup(es, m.key).Some? {
      var init := es[..|es| - 1];
      var last := es[|es| - 1];
      assert es == init + [last];
      LookupSnoc(init, last);
      if last.key != m.key {
        InsertPlacement(init, m);
      }
    }
  }

  /** The dict a decoded object denotes: its members inserted in order, so
      each key appears once, where it first occurred, with the value it was
      given last. */
  function Entries(ms: seq<Member>): (es: seq<Member>)
    ensures DistinctKeys(es)
    ensures forall k :: Lookup(es, k) == Lookup(ms, k)
    ensures forall e :: e in es ==> e in ms
    ensures |es| <= |ms|
  {
    if ms == [] then []
    else
      var init := ms[..|ms| - 1];
      assert forall e :: e in init ==> e in ms;
      Insert(Entries(init), ms[|ms| - 1])
  }

  /** The keys of the dict a decoded object denotes come in the order in
      which they first occur in the object. */
  lemma {:induction false} EntriesFirstOccurrenceOrder(ms: seq<Member>)
    ensures forall i, j :: 0 <= i < j < |Entries(ms)| ==>
      FirstIndex(ms, Entries(ms)[i].key) < FirstIndex(ms, Entries(ms)[j].key)
  {
    if ms != [] {
      var init := ms[..|ms| - 1];
      var x := ms[|ms| - 1];
      var d := Entries(init);
      assert Entries(ms) == Insert(d, x);
      EntriesFirstOccurrenceOrder(init);
      InsertKeepsFirstOccurrenceOrder(ms, d, x);
    }
  }

  /** Inserting the next member of an object into the dict of the members
      before it keeps the dict's keys in the order they first occur. */
  lemma InsertKeepsFirstOccurrenceOrder(ms: seq<Member>, d: seq<Member>, x: Member)
    requires ms != [] && x == ms[|ms| - 1]
    requires forall k :: Lookup(d, k) == Lookup(ms[..|ms| - 1], k)
    requires forall i, j :: 0 <= i < j < |d| ==>
      FirstIndex(ms[..|ms| - 1], d[i].key) < FirstIndex(ms[..|ms| - 1], d[j].key)
    ensures forall i, j :: 0 <= i < j < |Insert(d, x)| ==>
      FirstIndex(ms, Insert(d, x)[i].key) < FirstIndex(ms, Insert(d, x)[j].key)
  {
    InsertPlacement(d, x);
    FirstIndicesAfterSnoc(ms, d, x);
    if Lookup(d, x.key).None? {
      OrderAfterAppend(ms, d, x);
    } else {
      OrderAfterUpdate(ms, d, x);
    }
  }

  lemma OrderAfterAppend(ms: seq<Member>, d: seq<Member>, x: Member)
    requires forall i :: 0 <= i < |d| ==> 0 <= FirstIndex(ms, d[i].key) < |ms| - 1
    requires forall i, j :: 0 <= i < j < |d| ==> FirstIndex(ms, d[i].key) < FirstIndex(ms, d[j].key)
    requires FirstIndex(ms, x.key) == |ms| - 1
    ensures forall i, j :: 0 <= i < j < |d + [x]| ==>
      FirstIndex(ms, (d + [x])[i].key) < FirstIndex(ms, (d + [x])[j].key)
  {
    var es := d + [x];
    forall i, j | 0 <= i < j < |es|
      ensures FirstIndex(ms, es[i].key) < FirstIndex(ms, es[j].key)
    {
      assert es[i] == d[i];
      if j < |d| {
        assert es[j] == d[j];
      } else {
        assert es[j] == x;
      }
    }
  }

  lemma OrderAfterUpdate(ms: seq<Member>, d: seq<Member>, x: Member)
    requires |Insert(d, x)| == |d| && forall i :: 0 <= i < |d| ==> Insert(d, x)[i].key == d[i].key
    requires forall i, j :: 0 <= i < j < |d| ==> FirstIndex(ms, d[i].key) < FirstIndex(ms, d[j].key)
    ensures forall i, j :: 0 <= i < j < |Insert(d, x)| ==>
      FirstIndex(ms, Insert(d, x)[i].key) < FirstIndex(ms, Insert(d, x)[j].key)
  {
    var es := Insert(d, x);
    forall i, j | 0 <= i < j < |es|
      ensures FirstIndex(ms, es[i].key) < FirstIndex(ms, es[j].key)
    {
      assert es[i].key == d[i].key && es[j].key == d[j].key;
    }
  }

  /** Appending the object's last member moves no key's first occurrence,
      and a key new to the dict first occurs at that last member. */
  lemma FirstIndicesAfterSnoc(ms: seq<Member>, d: seq<Member>, x: Member)
    requires ms != [] && x == ms[|ms| - 1]
    requires forall k :: Lookup(d, k) == Lookup(ms[..|ms| - 1], k)
    ensures forall i :: 0 <= i < |d| ==> FirstIndex(ms, d[i].key) == FirstIndex(ms[..|ms| - 1], d[i].key)
    ensures forall i :: 0 <= i < |d| ==> 0 <= FirstIndex(ms, d[i].key) < |ms| - 1
    ensures Lookup(d, x.key).None? ==> FirstIndex(ms, x.key) == |ms| - 1
  {
    var init := ms[..|ms| - 1];
    assert ms == init + [x];
    forall i | 0 <= i < |d|
      ensures FirstIndex(ms, d[i].key) == FirstIndex(init, d[i].key)
      ensures 0 <= FirstIndex(ms, d[i].key) < |ms| - 1
    {
      var k := d[i].key;
      assert Lookup(d, k).Some?;
      assert Lookup(init, k).Some?;
      FirstIndexFound(init, k);
      FirstIndexSnoc(init, x, k);
    }
    if Lookup(d, x.key).None? {
      assert Lookup(init, x.key).None?;
      FirstIndexFound(init, x.key);
      FirstIndexSnoc(init, x, x.key);
    }
  }

  /** A member list without repeated keys already is its own dict. */
  lemma {:induction false} EntriesOfDistinct(ms: seq<Member>)
    requires DistinctKeys(ms)
    ensures Entries(ms) == ms
  {
    if ms != [] {
      var init := ms[..|ms| - 1];
      var last := ms[|ms| - 1];
      assert ms == init + [last];
      DistinctSnoc(init, last);
      EntriesOfDistinct(init);
      InsertPlacement(init, last);
    }
  }

  /** The object `{"a": 1, "b": 2, "a": 3}` is the dict `{"a": 3, "b": 2}`. */
  lemma RepeatedKeyKeepsFirstPlaceAndLastValue()
    ensures Entries([Member("a", JInt(1)), Member("b", JInt(2)), Member("a", JInt(3))])
         == [Member("a", JInt(3)), Member("b", JInt(2))]
  {
    var ms := [Member("a", JInt(1)), Member("b", JInt(2)), Member("a", JInt(3))];
    assert ms[..2] == [Member("a", JInt(1)), Member("b", JInt(2))];
    assert ms[..2][..1] == [Member("a", JInt(1))];
    assert Entries([Member("a", JInt(1))]) == [Member("a", JInt(1))];
    assert Entries(ms[..2]) == [Member("a", JInt(1)), Member("b", JInt(2))];
    assert [Member("a", JInt(1)), Member("b", JInt(2))][..1] == [Member("a", JInt(1))];
    assert Insert([Member("a", JInt(1))], Member("a", JInt(3))) == [Member("a", JInt(3))];
  }

  /** The dict `v` with `k` set to `x` (`v[k] = x`, modelled by appending a member). */
  function With(v: Json, k: string, x: Json): (w: Json)
    requires v.JObject?
    ensures Has(w, k) && Field(w, k) == x
    ensures forall k' :: k' != k ==> (Has(w, k') <==> Has(v, k'))
    ensures forall k' :: k' != k && Has(v, k') ==> Field(w, k') == Field(v, k')
  {
    JObject(v.members + [Member(k, x)])
  }

  /** `v[k]` for a string key: only a dict can be indexed by a string. */
  function Subscript(v: Json, k: string): (r: Result<Json>)
    ensures r.Ok? <==> Has(v, k)
    ensures r.Ok? ==> r.value == Field(v, k)
    ensures r.Raise? ==> r.fault == (if v.JObject? then KeyError else TypeError)
  {
    match v
    case JObject(ms) =>
      (match Lookup(ms, k)
       case Some(x) => Ok(x)
       case None => Raise(KeyError))
    case _ => Raise(TypeError)
  }

  /** `v.get(k, default)`: only dicts have a `get` method. */
  function Get(v: Json, k: string, default: Json): (r: Result<Json>)
    ensures r.Ok? <==> v.JObject?
    ensures r.Raise? ==> r.fault == AttributeError
    ensures Has(v, k) ==> r == Ok(Field(v, k))
    ensures v.JObject? && !Has(v, k) ==> r == Ok(default)
  {
    match v
    case JObject(ms) => Ok(Lookup(ms, k).GetOr(default))
    case _ => Raise(AttributeError)
  }

  /** `needle in v` for a string needle: a key of a dict, an element of a
      list, a substring of a string; other values are not containers. */
  function Contains(v: Json, needle: string): (r: Result<bool>)
    ensures r.Raise? <==> (v.JNull? || v.JBool? || v.JInt?)
    ensures v.JObject? ==> r == Ok(Has(v, needle))
    ensures v.JArray? ==> r == Ok(JString(needle) in v.items)
    ensures v.JString? ==> r == Ok(IsSubstring(needle, v.s))
  {
    match v
    case JObject(ms) => Ok(Lookup(ms, needle).Some?)
    case JArray(items) => Ok(JString(needle) in items)
    case JString(s) => Ok(IsSubstring(needle, s))
    case _ => Raise(TypeError)
  }

  /** `len(v) > 0`: strings, lists and dicts have a length; a dict is
      non-empty exactly when it has a member. */
  function LenPositive(v: Json): (r: Result<bool>)
    ensures r.Raise? <==> (v.JNull? || v.JBool? || v.JInt?)
    ensures r.Raise? ==> r.fault == TypeError
    ensures v.JString? ==> r == Ok(v.s != [])
    ensures v.JArray? ==> r == Ok(v.items != [])
    ensures v.JObject? ==> r == Ok(Entries(v.members) != [])
  {
    match v
    case JString(s) => Ok(|s| > 0)
    case JArray(items) => Ok(|items| > 0)
    case JObject(ms) =>
      assert ms != [] ==> Lookup(Entries(ms), ms[0].key).Some?;
      Ok(|ms| > 0)
    case _ => Raise(TypeError)
  }

  /** `v[0]`: the first element of a list, the first character of a string;
      a dict decoded from JSON has only string keys, so `0` is never one. */
  function First(v: Json): (r: Result<Json>)
    ensures r.Ok? <==> (v.JArray? && v.items != []) || (v.JString? && v.s != [])
    ensures r.Ok? && v.JArray? ==> r.value == v.items[0]
    ensures r.Ok? && v.JString? ==> r.value == JString([v.s[0]])
    ensures r.Raise? ==> r.fault == (if v.JArray? || v.JString? then IndexError
                                     else if v.JObject? then KeyError else TypeError)
  {
    match v
    case JArray(items) => if items == [] then Raise(IndexError) else Ok(items[0])
    case JString(s) => if s == [] then Raise(IndexError) else Ok(JString([s[0]]))
    case JObject(_) => Raise(KeyError)
    case _ => Raise(TypeError)
  }

  function DigitChar(d: nat): (c: char)
    requires d < 10
    ensures '0' <= c <= '9'
  {
    ('0' as int + d) as char
  }

  predicate AllDigits(s: string)
  {
    forall k :: 0 <= k < |s| ==> '0' <= s[k] <= '9'
  }

  /** The number a string of decimal digits denotes. */
  function DigitsValue(s: string): nat
    requires AllDigits(s)
  {
    if s == [] then 0 else 10 * DigitsValue(s[..|s| - 1]) + (s[|s| - 1] as int - '0' as int)
  }

  /** `int(t)` for the text `repr` gives an integer: an optional minus sign
      followed by at least one digit; `None` for anything else. */
  function ReadInt(t: string): Option<int>
  {
    if t != [] && t[0] == '-' then
      if |t| > 1 && AllDigits(t[1..]) then Some(-(DigitsValue(t[1..]) as int)) else None
    else if t != [] && AllDigits(t) then Some(DigitsValue(t))
    else None
  }

  /** The decimal digits of `n`, without leading zeros. */
  function NatToDecimal(n: nat): (r: string)
    ensures r != [] && (n > 0 ==> r[0] != '0')
    ensures AllDigits(r) && DigitsValue(r) == n
  {
    if n < 10 then [DigitChar(n)]
    else
      var r := NatToDecimal(n / 10) + [DigitChar(n % 10)];
      assert r[..|r| - 1] == NatToDecimal(n / 10);
      r
  }

  /** `str(i)` of an int: its digits, with a minus sign when negative. */
  function IntToDecimal(i: int): (r: string)
    ensures r != [] && (r[0] == '-' <==> i < 0)
    ensures i < 0 ==> |r| > 1 && r[1] != '0'
    ensures i >= 0 ==> r[0] != '0' || r == "0"
    ensures ReadInt(r) == Some(i)
  {
    if i < 0 then
      var r := "-" + NatToDecimal(-i);
      assert r[1..] == NatToDecimal(-i);
      r
    else NatToDecimal(i)
  }

  function Join(parts: seq<string>, sep: string): string
  {
    if parts == [] then ""
    else if |parts| == 1 then parts[0]
    else parts[0] + sep + Join(parts[1..], sep)
  }

  /** `repr(v)`. A dict is printed as its entries, so a key the decoded
      object repeats appears once, with its last value. */
  function Repr(v: Json): (r: string)
    ensures v.JNull? ==> r == "None"
    ensures v.JBool? ==> r == (if v.b then "True" else "False")
    ensures v.JInt? ==> r != [] && (r[0] == '-' <==> v.i < 0)
    ensures v.JInt? ==> ReadInt(r) == Some(v.i)
    ensures v.JString? ==> Unquote(r) == Some(v.s)
    ensures v.JArray? ==> |r| >= 2 && r[0] == '[' && r[|r| - 1] == ']'
    ensures v.JObject? ==> |r| >= 2 && r[0] == '{' && r[|r| - 1] == '}'
    decreases v
  {
    match v
    case JNull => "None"
    case JBool(b) => if b then "True" else "False"
    case JInt(i) => IntToDecimal(i)
    case JString(s) => ReprStringRoundTrip(s); ReprString(s)
    case JArray(items) =>
      "[" + Join(seq(|items|, k requires 0 <= k < |items| => Repr(items[k])), ", ") + "]"
    case JObject(ms) =>
      var es := Entries(ms);
      assert forall k :: 0 <= k < |es| ==> es[k] < v by {
        forall k | 0 <= k < |es|
          ensures es[k] < v
        {
          assert es[k] in ms;
          var j :| 0 <= j < |ms| && ms[j] == es[k];
        }
      }
      "{" + Join(seq(|es|, k requires 0 <= k < |es| => ReprString(es[k].key) + ": " + Repr(es[k].value)), ", ") + "}"
  }

  lemma {:induction false} JoinHasPart(parts: seq<string>, sep: string, k: nat)
    requires k < |parts|
    ensures IsSubstring(parts[k], Join(parts, sep))
  {
    if |parts| == 1 {
      SubstringOfConcat("", parts[0], "");
      assert "" + parts[0] + "" == Join(parts, sep);
    } else if k == 0 {
      SubstringOfConcat("", parts[0], sep + Join(parts[1..], sep));
      assert "" + parts[0] + (sep + Join(parts[1..], sep)) == Join(parts, sep);
    } else {
      JoinHasPart(parts[1..], sep, k - 1);
      SubstringOfConcat(parts[0] + sep, Join(parts[1..], sep), "");
      assert parts[0] + sep + Join(parts[1..], sep) + "" == Join(parts, sep);
      SubstringTransitive(parts[k], Join(parts[1..], sep), Join(parts, sep));
    }
  }

  /** Printing a list prints every element. */
  lemma ReprListShowsItems(items: seq<Json>, k: nat)
    requires k < |items|
    ensures IsSubstring(Repr(items[k]), Repr(JArray(items)))
  {
    var parts := seq(|items|, i requires 0 <= i < |items| => Repr(items[i]));
    JoinHasPart(parts, ", ", k);
    SubstringOfConcat("[", Join(parts, ", "), "]");
    SubstringTransitive(parts[k], Join(parts, ", "), Repr(JArray(items)));
  }

  /** Printing a dict prints every key with the value it holds. */
  lemma ReprDictShowsEntries(ms: seq<Member>, key: string)
    requires Lookup(ms, key).Some?
    ensures IsSubstring(ReprString(key) + ": " + Repr(Lookup(ms, key).value), Repr(JObject(ms)))
  {
    var es := Entries(ms);
    var i :| 0 <= i < |es| && es[i].key == key && es[i].value == Lookup(es, key).value;
    var parts := seq(|es|, k requires 0 <= k < |es| => ReprString(es[k].key) + ": " + Repr(es[k].value));
    assert parts[i] == ReprString(key) + ": " + Repr(Lookup(ms, key).value);
    JoinHasPart(parts, ", ", i);
    SubstringOfConcat("{", Join(parts, ", "), "}");
    SubstringTransitive(parts[i], Join(parts, ", "), Repr(JObject(ms)));
  }

  /** Printing a dict prints its entries: an object and its dict print alike. */
  lemma ReprIgnoresRepeatedKeys(ms: seq<Member>)
    ensures Repr(JObject(ms)) == Repr(JObject(Entries(ms)))
  {
    EntriesOfDistinct(Entries(ms));
    var es := Entries(ms);
    assert Entries(es) == es;
  }

  /** `{"cpu": 1, "cpu": 2}` prints as `{'cpu': 2}`. */
  lemma RepeatedKeyPrintsOnce()
    ensures Repr(JObject([Member("cpu", JInt(1)), Member("cpu", JInt(2))])) == "{'cpu': 2}"
  {
    var ms := [Member("cpu", JInt(1)), Member("cpu", JInt(2))];
    ReprIgnoresRepeatedKeys(ms);
    RepeatedCpuIsOneEntry();
    ReprSingleEntry("cpu", JInt(2));
    CpuPrintsQuoted();
    assert Repr(JInt(2)) == "2";
  }

  lemma SingleMemberIsItsDict(m: Member)
    ensures Entries([m]) == [m]
  {
    assert [m][..0] == [];
    InsertPlacement([], m);
  }

  lemma ReprSingleEntry(k: string, v: Json)
    ensures Repr(JObject([Member(k, v)])) == "{" + ReprString(k) + ": " + Repr(v) + "}"
  {
    var ms := [Member(k, v)];
    SingleMemberIsItsDict(Member(k, v));
    var parts := seq(|ms|, i requires 0 <= i < |ms| => ReprString(ms[i].key) + ": " + Repr(ms[i].value));
    assert |parts| == 1 && parts[0] == ReprString(k) + ": " + Repr(v);
    assert Join(parts, ", ") == parts[0];
  }

  lemma CpuPrintsQuoted()
    ensures ReprString("cpu") == "'cpu'"
  {
    assert QuoteFor("cpu") == '\'';
    assert Escape("cpu", '\'') == "cpu";
  }

  lemma RepeatedCpuIsOneEntry()
    ensures Entries([Member("cpu", JInt(1)), Member("cpu", JInt(2))]) == [Member("cpu", JInt(2))]
  {
    var ms := [Member("cpu", JInt(1)), Member("cpu", JInt(2))];
    assert ms[..1] == [Member("cpu", JInt(1))];
  }

  /** `str(v)`, which is what `{v}` in an f-string produces: a string is
      inserted as it is, anything else as its `repr`. */
  function PyStr(v: Json): (r: string)
    ensures v.JString? ==> r == v.s
    ensures !v.JString? ==> r == Repr(v) && r != []
  {
    match v
    case JString(s) => s
    case _ => Repr(v)
  }
}
