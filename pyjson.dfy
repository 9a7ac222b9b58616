/** JSON values as Python's `json` module hands them to the script, and the few
    Python operations the script applies to them: `v[key]`, `v.get(key)`,
    iteration, `sep.join(v)`, `v == 0` and the integer `range` accepts.
    Every operation that can raise answers `None` for the exception. */
module PyJson {
  import opened Options

  /** A decoded JSON value. An object keeps its members in document order. */
  datatype Json =
    | Null
    | Bool(b: bool)
    | Num(n: int)
    | Str(s: string)
    | Arr(elems: seq<Json>)
    | Obj(members: seq<(string, Json)>)

  /** The value of the last member named `key`: `json.loads` keeps the last of repeated keys. */
  function Lookup(members: seq<(string, Json)>, key: string): Option<Json>
  {
    if members == [] then None
    else if members[|members| - 1].0 == key then Some(members[|members| - 1].1)
    else Lookup(members[..|members| - 1], key)
  }

  /** The dict has `key` exactly when some member names it, and then holds the value of
      a member named `key` that no later member names again: the last one. */
  lemma {:induction false} LookupFindsLast(members: seq<(string, Json)>, key: string)
    ensures Lookup(members, key).Some? <==> exists k :: 0 <= k < |members| && members[k].0 == key
    ensures Lookup(members, key).Some? ==>
      exists k :: 0 <= k < |members| && members[k] == (key, Lookup(members, key).value) &&
        (forall j :: k < j < |members| ==> members[j].0 != key)
    decreases |members|
  {
    if members != [] {
      var n := |members| - 1;
      if members[n].0 == key {
        assert members[n] == (key, Lookup(members, key).value);
      } else {
        var init := members[..n];
        assert Lookup(members, key) == Lookup(init, key);
        LookupFindsLast(init, key);
        if Lookup(init, key).Some? {
          var k :| 0 <= k < n && init[k] == (key, Lookup(init, key).value) &&
            (forall j :: k < j < n ==> init[j].0 != key);
          assert members[k] == init[k];
          assert forall j :: k < j < |members| ==> members[j].0 != key by {
            assert forall j :: k < j < n ==> members[j] == init[j];
          }
        } else {
          assert forall k :: 0 <= k < n ==> members[k] == init[k];
        }
      }
    }
  }

  /** `v[key]` with a string key: a dict answers the member's value and raises KeyError
      when it has none; every other value raises TypeError. */
  function Subscript(v: Json, key: string): (r: Option<Json>)
    ensures r.Some? ==> v.Obj?
  {
    if v.Obj? then Lookup(v.members, key) else None
  }

  /** `v.get(key)`: a dict answers None (JSON null) for a missing key; every other value
      raises AttributeError. */
  function Get(v: Json, key: string): (r: Option<Json>)
    ensures r.Some? <==> v.Obj?
    ensures Subscript(v, key).Some? ==> r == Subscript(v, key)
    ensures v.Obj? && Subscript(v, key).None? ==> r == Some(Null)
  {
    if v.Obj? then
      match Lookup(v.members, key)
      case Some(x) => Some(x)
      case None => Some(Null)
    else None
  }

  /** The position of the first member named `key`, or |members| when there is none. */
  function FirstAt(members: seq<(string, Json)>, key: string): (p: nat)
    ensures p <= |members|
    ensures p < |members| ==> members[p].0 == key
    ensures forall k :: 0 <= k < p ==> members[k].0 != key
  {
    if members == [] then 0
    else if members[0].0 == key then 0
    else 1 + FirstAt(members[1..], key)
  }

  /** A key already named in a prefix has its first position in that prefix. */
  lemma FirstAtPrefix(members: seq<(string, Json)>, n: nat, key: string)
    requires n <= |members| && FirstAt(members[..n], key) < n
    ensures FirstAt(members, key) == FirstAt(members[..n], key)
  {
    var p := FirstAt(members[..n], key);
    assert members[p] == members[..n][p];
  }

  /** `keys` lists each key of `members` once, in the order of its first occurrence. */
  ghost predicate KeysInOrder(members: seq<(string, Json)>, keys: seq<string>)
  {
    && (forall key :: key in keys <==> FirstAt(members, key) < |members|)
    && (forall i, j :: 0 <= i < j < |keys| ==> FirstAt(members, keys[i]) < FirstAt(members, keys[j]))
  }

  /** Against a prefix's keys, the whole sequence keeps the first positions of the keys
      the prefix names and puts every other key at or after the prefix's end. */
  lemma FirstAtBeyondPrefix(members: seq<(string, Json)>, n: nat, init: seq<string>)
    requires n <= |members| && KeysInOrder(members[..n], init)
    ensures forall x :: x in init ==> FirstAt(members, x) == FirstAt(members[..n], x) < n
    ensures forall x :: x !in init ==> FirstAt(members, x) >= n
  {
    forall x | x in init
      ensures FirstAt(members, x) == FirstAt(members[..n], x) < n
    {
      FirstAtPrefix(members, n, x);
    }
    forall x | x !in init
      ensures FirstAt(members, x) >= n
    {
      assert FirstAt(members[..n], x) == n;
      forall k | 0 <= k < n
        ensures members[k].0 != x
      {
        assert members[k] == members[..n][k];
      }
    }
  }

  /** One more member adds its key at the end, unless an earlier member named it. */
  lemma KeysInOrderExtend(members: seq<(string, Json)>, init: seq<string>)
    requires members != [] && KeysInOrder(members[..|members| - 1], init)
    ensures var key := members[|members| - 1].0;
      KeysInOrder(members, if key in init then init else init + [key])
  {
    var n := |members| - 1;
    FirstAtBeyondPrefix(members, n, init);
    KeysExtendMembers(members, init);
    KeysExtendOrder(members, init);
  }

  lemma KeysExtendMembers(members: seq<(string, Json)>, init: seq<string>)
    requires members != []
    requires forall x :: x in init ==> FirstAt(members, x) < |members| - 1
    requires forall x :: x !in init ==> FirstAt(members, x) >= |members| - 1
    ensures var key := members[|members| - 1].0;
      forall x :: x in (if key in init then init else init + [key]) <==> FirstAt(members, x) < |members|
  {
    var n := |members| - 1;
    var key := members[n].0;
    forall x
      ensures x in (if key in init then init else init + [key]) <==> FirstAt(members, x) < |members|
    {
      if x !in init && x != key {
        assert FirstAt(members, x) != n;
      }
    }
  }

  lemma KeysExtendOrder(members: seq<(string, Json)>, init: seq<string>)
    requires members != []
    requires forall x :: x in init ==> FirstAt(members, x) < |members| - 1
    requires forall x :: x !in init ==> FirstAt(members, x) >= |members| - 1
    requires forall i, j :: 0 <= i < j < |init| ==> FirstAt(members, init[i]) < FirstAt(members, init[j])
    ensures var key := members[|members| - 1].0;
      var r := if key in init then init else init + [key];
      forall i, j :: 0 <= i < j < |r| ==> FirstAt(members, r[i]) < FirstAt(members, r[j])
  {
    var n := |members| - 1;
    var key := members[n].0;
    if key !in init {
      var r := init + [key];
      assert FirstAt(members, key) == n;
      forall i, j | 0 <= i < j < |r|
        ensures FirstAt(members, r[i]) < FirstAt(members, r[j])
      {
        assert r[i] == init[i];
        if j < |init| {
          assert r[j] == init[j];
        } else {
          assert r[j] == key && FirstAt(members, key) == n;
        }
      }
    }
  }

  /** The keys of the dict `json.loads` builds from an object: each key once, in the
      order of its first occurrence. */
  function Keys(members: seq<(string, Json)>): (r: seq<string>)
    ensures KeysInOrder(members, r)
    decreases |members|
  {
    if members == [] then []
    else
      var init := Keys(members[..|members| - 1]);
      var key := members[|members| - 1].0;
      KeysInOrderExtend(members, init);
      if key in init then init else init + [key]
  }

  /** `for x in v`: a list yields its elements, a dict its keys (each once, in the order
      of first occurrence), a string its characters (each a one-character string); None,
      booleans and numbers raise TypeError. */
  function Iterate(v: Json): (r: Option<seq<Json>>)
    ensures r.Some? <==> v.Arr? || v.Obj? || v.Str?
    ensures v.Arr? ==> r == Some(v.elems)
    ensures v.Obj? ==> |r.value| == |Keys(v.members)| && forall k :: 0 <= k < |r.value| ==> r.value[k] == Str(Keys(v.members)[k])
    ensures v.Str? ==> |r.value| == |v.s| && forall k :: 0 <= k < |v.s| ==> r.value[k] == Str([v.s[k]])
  {
    match v
    case Arr(xs) => Some(xs)
    case Obj(ms) =>
      var keys := Keys(ms);
      Some(seq(|keys|, k requires 0 <= k < |keys| => Str(keys[k])))
    case Str(s) => Some(seq(|s|, k requires 0 <= k < |s| => Str([s[k]])))
    case _ => None
  }

  /** The strings of `xs`, or None when one of them is not a string. */
  function Texts(xs: seq<Json>): (r: Option<seq<string>>)
    ensures r.Some? <==> forall k :: 0 <= k < |xs| ==> xs[k].Str?
    ensures r.Some? ==> |r.value| == |xs| && forall k :: 0 <= k < |xs| ==> r.value[k] == xs[k].s
  {
    if xs == [] then Some([])
    else if !xs[0].Str? then None
    else
      match Texts(xs[1..])
      case None => None
      case Some(t) => Some([xs[0].s] + t)
  }

  /** The parts with `sep` between each two neighbours. */
  function Join(sep: string, parts: seq<string>): string
  {
    if parts == [] then ""
    else if |parts| == 1 then parts[0]
    else parts[0] + sep + Join(sep, parts[1..])
  }

  /** `sep.join(v)`: raises TypeError unless `v` is iterable and yields only strings. */
  function JoinValue(sep: string, v: Json): (r: Option<string>)
    ensures r.Some? <==> Iterate(v).Some? && Texts(Iterate(v).value).Some?
  {
    match Iterate(v)
    case None => None
    case Some(xs) =>
      match Texts(xs)
      case None => None
      case Some(t) => Some(Join(sep, t))
  }

  /** Joining a dict joins its keys, and a key repeated in the document is one key of the
      dict: `';'.join` of `{"a": 1, "a": 2}` is `"a"`. */
  lemma RepeatedKeyJoinedOnce()
    ensures JoinValue(";", Obj([("a", Num(1)), ("a", Num(2))])) == Some("a")
  {
    var ms := [("a", Num(1)), ("a", Num(2))];
    assert ms[..1] == [("a", Num(1))] && ms[..1][..0] == [];
    assert Keys(ms[..1]) == ["a"];
    assert Keys(ms) == ["a"];
  }

  /** `s.split(sep)` for a one-character separator: the pieces between separators. */
  function Split(s: string, sep: char): (r: seq<string>)
    ensures |r| >= 1
  {
    if s == [] then [""]
    else
      var rest := Split(s[1..], sep);
      if s[0] == sep then [""] + rest else [[s[0]] + rest[0]] + rest[1..]
  }

  /** Splitting `p + t` where `p` holds no separator glues `p` to the first piece of `t`. */
  lemma {:induction false} SplitAfterPlainPrefix(p: string, t: string, sep: char)
    requires sep !in p
    ensures Split(p + t, sep) == [p + Split(t, sep)[0]] + Split(t, sep)[1..]
    decreases |p|
  {
    if p != [] {
      assert (p + t)[1..] == p[1..] + t;
      assert (p + t)[0] == p[0];
      SplitAfterPlainPrefix(p[1..], t, sep);
      assert [p[0]] + (p[1..] + Split(t, sep)[0]) == p + Split(t, sep)[0];
    } else {
      var r := Split(t, sep);
      assert p + t == t && p + r[0] == r[0];
      assert r == [r[0]] + r[1..];
    }
  }

  /** Joining with a one-character separator that no part contains can be undone by
      splitting: the notation list survives the `;`-join. */
  lemma {:induction false} SplitJoin(parts: seq<string>, sep: char)
    requires |parts| >= 1
    requires forall k :: 0 <= k < |parts| ==> sep !in parts[k]
    ensures Split(Join([sep], parts), sep) == parts
    decreases |parts|
  {
    if |parts| == 1 {
      SplitAfterPlainPrefix(parts[0], "", sep);
      assert parts[0] + "" == parts[0];
    } else {
      var tail := Join([sep], parts[1..]);
      assert Join([sep], parts) == parts[0] + ([sep] + tail);
      SplitAfterPlainPrefix(parts[0], [sep] + tail, sep);
      assert ([sep] + tail)[1..] == tail;
      SplitJoin(parts[1..], sep);
      assert Split([sep] + tail, sep) == [""] + parts[1..];
      assert parts[0] + "" == parts[0];
    }
  }

  /** Python's `v == 0`: true of the integer 0 and of False (bool is a subclass of int). */
  predicate EqualsZero(v: Json)
  {
    v == Num(0) || v == Bool(false)
  }

  /** The integer `range(...)` takes from `v`: ints, and booleans as 0 and 1; every other
      value raises TypeError. */
  function AsIndex(v: Json): (r: Option<int>)
    ensures r.Some? <==> v.Num? || v.Bool?
    ensures r == Some(0) <==> EqualsZero(v)
  {
    match v
    case Num(n) => Some(n)
    case Bool(b) => Some(if b then 1 else 0)
    case _ => None
  }
}
