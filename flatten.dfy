/** flattenTranslations of tools/convert_translations.go: a nested
    translation tree becomes a flat table from dotted keys to go-i18n
    messages {"other": value}.

    A JSON object is the sequence of its members in the order the range loop
    visits them; a leaf is any non-object JSON value, kept as its text. */
module Flatten {
  import opened Common

  datatype Node = Leaf(text: string) | Object(members: seq<Member>)
  datatype Member = Member(key: string, value: Node)

  /** The go-i18n message written for a leaf: {"other": value}. */
  datatype Message = Message(other: string)

  /** The keys of an object's members. */
  function Keys(members: seq<Member>): set<string>
  {
    if members == [] then {} else {members[0].key} + Keys(members[1..])
  }

  /** A tree decoded into Go maps: no object has two members with one key. */
  predicate WellFormed(members: seq<Member>)
    decreases members
  {
    members == []
    || (members[0].key !in Keys(members[1..])
        && (match members[0].value
            case Leaf(_) => true
            case Object(nested) => WellFormed(nested))
        && WellFormed(members[1..]))
  }

  /** No key anywhere in the tree contains a '.'. */
  predicate NoDots(members: seq<Member>)
    decreases members
  {
    members == []
    || ('.' !in members[0].key
        && (match members[0].value
            case Leaf(_) => true
            case Object(nested) => NoDots(nested))
        && NoDots(members[1..]))
  }

  // ---------------------------------------------------------------------------
  // The code as written

  /** newKey: the key itself at the top (empty prefix), prefix + "." + key below. */
  function FullKey(prefix: string, key: string): string
  {
    if prefix != "" then prefix + "." + key else key
  }

  /** The (key, leaf) pairs flattenTranslations writes for `members` under
      `prefix`, in the order it writes them. */
  function Leaves(prefix: string, members: seq<Member>): seq<(string, string)>
    decreases members
  {
    if members == [] then []
    else
      var newKey := FullKey(prefix, members[0].key);
      (match members[0].value
       case Leaf(text) => [(newKey, text)]
       case Object(nested) => Leaves(newKey, nested))
      + Leaves(prefix, members[1..])
  }

  /** The table that results from writing the pairs in order: a later pair
      overwrites an earlier one with the same key. */
  function ToMap(pairs: seq<(string, string)>): map<string, Message>
  {
    if pairs == [] then map[]
    else ToMap(pairs[..|pairs| - 1])[pairs[|pairs| - 1].0 := Message(pairs[|pairs| - 1].1)]
  }

  function KeysOf(pairs: seq<(string, string)>): set<string>
  {
    set i | 0 <= i < |pairs| :: pairs[i].0
  }

  /** The table has exactly the written keys, each holding the message of
      the last pair written under it. */
  lemma {:induction false} ToMapContents(pairs: seq<(string, string)>, i: nat)
    requires i < |pairs|
    requires forall j | i < j < |pairs| :: pairs[j].0 != pairs[i].0
    ensures ToMap(pairs).Keys == KeysOf(pairs)
    ensures pairs[i].0 in ToMap(pairs) && ToMap(pairs)[pairs[i].0] == Message(pairs[i].1)
  {
    ToMapKeys(pairs);
    if i < |pairs| - 1 {
      var init := pairs[..|pairs| - 1];
      assert forall j | i < j < |init| :: init[j] == pairs[j];
      ToMapContents(init, i);
    }
  }

  lemma {:induction false} ToMapKeys(pairs: seq<(string, string)>)
    ensures ToMap(pairs).Keys == KeysOf(pairs)
  {
    if pairs != [] {
      var init := pairs[..|pairs| - 1];
      ToMapKeys(init);
      assert KeysOf(pairs) == KeysOf(init) + {pairs[|pairs| - 1].0} by {
        forall k | k in KeysOf(pairs) ensures k in KeysOf(init) + {pairs[|pairs| - 1].0} {
          var j :| 0 <= j < |pairs| && pairs[j].0 == k;
          if j < |pairs| - 1 {
            assert init[j] == pairs[j];
          }
        }
        forall k | k in KeysOf(init) ensures k in KeysOf(pairs) {
          var j :| 0 <= j < |init| && init[j].0 == k;
          assert pairs[j] == init[j];
        }
      }
    }
  }

  lemma {:induction false} ToMapAppend(a: seq<(string, string)>, b: seq<(string, string)>)
    ensures ToMap(a + b) == ToMap(a) + ToMap(b)
    decreases |b|
  {
    if b == [] {
      assert a + b == a;
    } else {
      var init := b[..|b| - 1];
      assert (a + b)[..|a + b| - 1] == a + init;
      ToMapAppend(a, init);
    }
  }

  lemma {:induction false} LeavesAppend(prefix: string, a: seq<Member>, b: seq<Member>)
    ensures Leaves(prefix, a + b) == Leaves(prefix, a) + Leaves(prefix, b)
    decreases |a|
  {
    if a != [] {
      assert (a + b)[1..] == a[1..] + b;
      LeavesAppend(prefix, a[1..], b);
    } else {
      assert a + b == b;
    }
  }

  /** The table written for one member. */
  function MemberTable(prefix: string, m: Member): (t: map<string, Message>)
    ensures m.value.Leaf? ==> t == map[FullKey(prefix, m.key) := Message(m.value.text)]
    ensures m.value.Object? ==> t == ToMap(Leaves(FullKey(prefix, m.key), m.value.members))
  {
    var own := Leaves(prefix, [m]);
    var mine := match m.value
                case Leaf(text) => [(FullKey(prefix, m.key), text)]
                case Object(nested) => Leaves(FullKey(prefix, m.key), nested);
    assert [m][1..] == [] && [m][0] == m;
    assert own == mine + Leaves(prefix, []);
    assert own == mine;
    assert m.value.Leaf? ==> |own| == 1 && own[..|own| - 1] == [] && ToMap(own[..|own| - 1]) == map[];
    ToMap(own)
  }

  /** Flattening one more member adds its table over what is there. */
  lemma {:induction false} MemberStep(prefix: string, data: seq<Member>, i: nat)
    requires i < |data|
    ensures ToMap(Leaves(prefix, data[..i + 1])) == ToMap(Leaves(prefix, data[..i])) + MemberTable(prefix, data[i])
  {
    assert data[..i + 1] == data[..i] + [data[i]];
    LeavesAppend(prefix, data[..i], [data[i]]);
    ToMapAppend(Leaves(prefix, data[..i]), Leaves(prefix, [data[i]]));
  }

  /** A member holding an empty object writes nothing: removing it leaves
      the pairs unchanged. */
  lemma EmptyObjectAddsNothing(prefix: string, a: seq<Member>, key: string, b: seq<Member>)
    ensures Leaves(prefix, a + [Member(key, Object([]))] + b) == Leaves(prefix, a + b)
  {
    var m := Member(key, Object([]));
    assert [m][1..] == [];
    assert Leaves(prefix, [m]) == [];
    LeavesAppend(prefix, a, [m]);
    LeavesAppend(prefix, a + [m], b);
    LeavesAppend(prefix, a, b);
  }

  /** The copy loop `for k, v := range flattened { result[k] = v }`. */
  method CopyInto(result: map<string, Message>, flattened: map<string, Message>) returns (r: map<string, Message>)
    ensures r == result + flattened
  {
    r := result;
    var pending := flattened.Keys;
    while pending != {}
      invariant pending <= flattened.Keys
      invariant r == result + map k | k in flattened.Keys - pending :: flattened[k]
      decreases pending
    {
      var k :| k in pending;
      r := r[k := flattened[k]];
      pending := pending - {k};
    }
  }

  /** flattenTranslations: for each member, a nested object is flattened
      under the member's key and copied into the result entry by entry; any
      other value is written as {"other": value} under the member's key. */
  method FlattenTranslations(prefix: string, data: seq<Member>) returns (result: map<string, Message>)
    ensures result == ToMap(Leaves(prefix, data))
    decreases data
  {
    result := map[];
    for i := 0 to |data|
      invariant result == ToMap(Leaves(prefix, data[..i]))
    {
      var key := data[i].key;
      var newKey := key;
      if prefix != "" {
        newKey := prefix + "." + key;
      }
      MemberStep(prefix, data, i);
      assert newKey == FullKey(prefix, key);
      ghost var table := MemberTable(prefix, data[i]);
      match data[i].value {
        case Object(v) =>
          var flattened := FlattenTranslations(newKey, v);
          assert flattened == table;
          result := CopyInto(result, flattened);
        case Leaf(text) =>
          assert table == map[newKey := Message(text)];
          assert result + table == result[newKey := Message(text)];
          result := result[newKey := Message(text)];
      }
    }
    assert data[..|data|] == data;
  }

  // ---------------------------------------------------------------------------
  // Root-to-leaf paths

  /** Every leaf with the keys on its way from the root, in visiting order. */
  function Paths(members: seq<Member>): seq<(seq<string>, string)>
    decreases members
  {
    if members == [] then []
    else
      (match members[0].value
       case Leaf(text) => [([members[0].key], text)]
       case Object(nested) => Prefixed(members[0].key, Paths(nested)))
      + Paths(members[1..])
  }

  function Prefixed(key: string, paths: seq<(seq<string>, string)>): (r: seq<(seq<string>, string)>)
    ensures |r| == |paths|
    ensures forall i | 0 <= i < |r| :: r[i] == ([key] + paths[i].0, paths[i].1)
  {
    seq(|paths|, i requires 0 <= i < |paths| => ([key] + paths[i].0, paths[i].1))
  }

  /** The keys of a path joined by ".". */
  function Join(path: seq<string>): string
  {
    if path == [] then ""
    else if |path| == 1 then path[0]
    else path[0] + "." + Join(path[1..])
  }

  /** Every path is non-empty and starts with a key of the object. */
  lemma {:induction false} PathsStartAtKeys(members: seq<Member>)
    ensures forall i | 0 <= i < |Paths(members)| :: Paths(members)[i].0 != [] && Paths(members)[i].0[0] in Keys(members)
  {
    if members != [] {
      PathsStartAtKeys(members[1..]);
      var here := match members[0].value
                  case Leaf(text) => [([members[0].key], text)]
                  case Object(nested) => Prefixed(members[0].key, Paths(nested));
      assert Paths(members) == here + Paths(members[1..]);
      forall i | 0 <= i < |Paths(members)|
        ensures Paths(members)[i].0 != [] && Paths(members)[i].0[0] in Keys(members)
      {
        if i >= |here| {
          assert Paths(members)[i] == Paths(members[1..])[i - |here|];
        }
      }
    }
  }

  predicate DistinctPaths(paths: seq<(seq<string>, string)>)
  {
    forall i, j | 0 <= i < j < |paths| :: paths[i].0 != paths[j].0
  }

  /** In a tree with distinct keys per object, no two leaves share a path. */
  lemma {:induction false} PathsDistinct(members: seq<Member>)
    requires WellFormed(members)
    ensures DistinctPaths(Paths(members))
  {
    if members != [] {
      var key := members[0].key;
      var here := match members[0].value
                  case Leaf(text) => [([key], text)]
                  case Object(nested) => Prefixed(key, Paths(nested));
      var rest := Paths(members[1..]);
      PathsDistinct(members[1..]);
      PathsStartAtKeys(members[1..]);
      if members[0].value.Object? {
        PathsDistinct(members[0].value.members);
        forall i, j | 0 <= i < j < |here| ensures here[i].0 != here[j].0 {
          var nested := Paths(members[0].value.members);
          assert here[i].0[1..] == nested[i].0 && here[j].0[1..] == nested[j].0;
        }
      }
      assert forall i | 0 <= i < |here| :: here[i].0 != [] && here[i].0[0] == key;
      assert Paths(members) == here + rest;
      forall i, j | 0 <= i < j < |here + rest| ensures (here + rest)[i].0 != (here + rest)[j].0 {
        if i < |here| && j >= |here| {
          assert (here + rest)[j] == rest[j - |here|];
          assert rest[j - |here|].0[0] in Keys(members[1..]);
        } else if i >= |here| {
          assert (here + rest)[i] == rest[i - |here|] && (here + rest)[j] == rest[j - |here|];
        }
      }
    }
  }

  predicate DotFree(path: seq<string>)
  {
    forall k | 0 <= k < |path| :: '.' !in path[k]
  }

  /** Without dots in the keys, no path has a dotted segment. */
  lemma {:induction false} PathsDotFree(members: seq<Member>)
    requires NoDots(members)
    ensures forall i | 0 <= i < |Paths(members)| :: DotFree(Paths(members)[i].0)
  {
    if members != [] {
      var key := members[0].key;
      var here := match members[0].value
                  case Leaf(text) => [([key], text)]
                  case Object(nested) => Prefixed(key, Paths(nested));
      PathsDotFree(members[1..]);
      if members[0].value.Object? {
        PathsDotFree(members[0].value.members);
        forall i | 0 <= i < |here| ensures DotFree(here[i].0) {
          var nested := Paths(members[0].value.members);
          assert forall k | 1 <= k < |here[i].0| :: here[i].0[k] == nested[i].0[k - 1];
        }
      }
      assert Paths(members) == here + Paths(members[1..]);
      forall i | 0 <= i < |Paths(members)| ensures DotFree(Paths(members)[i].0) {
        if i >= |here| {
          assert Paths(members)[i] == Paths(members[1..])[i - |here|];
        }
      }
    }
  }

  /** A join of dot-free keys has a dot exactly when it joins two or more. */
  lemma {:induction false} JoinHasDot(path: seq<string>)
    requires path != [] && DotFree(path)
    ensures '.' in Join(path) <==> |path| > 1
  {
    if |path| > 1 {
      assert Join(path)[|path[0]|] == '.';
    }
  }

  /** Joining dot-free keys with "." loses nothing: the path can be read
      back from the key. */
  lemma {:induction false} JoinInjective(p: seq<string>, q: seq<string>)
    requires p != [] && q != [] && DotFree(p) && DotFree(q)
    requires Join(p) == Join(q)
    ensures p == q
  {
    JoinHasDot(p);
    JoinHasDot(q);
    if |p| > 1 {
      CutAtJoin(p[0], '.', Join(p[1..]));
      CutAtJoin(q[0], '.', Join(q[1..]));
      assert p[0] + "." + Join(p[1..]) == p[0] + ['.'] + Join(p[1..]);
      assert q[0] + "." + Join(q[1..]) == q[0] + ['.'] + Join(q[1..]);
      assert p[0] == q[0];
      assert Join(p[1..]) == Join(p)[|p[0]| + 1..];
      assert Join(q[1..]) == Join(q)[|q[0]| + 1..];
      JoinInjective(p[1..], q[1..]);
      assert p == [p[0]] + p[1..] && q == [q[0]] + q[1..];
    }
  }

  // ---------------------------------------------------------------------------
  // Keys of the flattened table

  /** The corrected newKey: a member is at the top when there is no prefix at
      all, not when the prefix is the empty string. */
  function CorrectedKey(prefix: Option<string>, key: string): string
  {
    match prefix
    case None => key
    case Some(p) => p + "." + key
  }

  /** The (key, leaf) pairs with the corrected newKey. */
  function CorrectedLeaves(prefix: Option<string>, members: seq<Member>): seq<(string, string)>
    decreases members
  {
    if members == [] then []
    else
      var newKey := CorrectedKey(prefix, members[0].key);
      (match members[0].value
       case Leaf(text) => [(newKey, text)]
       case Object(nested) => CorrectedLeaves(Some(newKey), nested))
      + CorrectedLeaves(prefix, members[1..])
  }

  /** Each path's joined keys under the prefix, with its leaf. */
  function Joined(prefix: Option<string>, paths: seq<(seq<string>, string)>): (r: seq<(string, string)>)
    ensures |r| == |paths|
    ensures forall i | 0 <= i < |r| :: r[i] == (CorrectedKey(prefix, Join(paths[i].0)), paths[i].1)
  {
    seq(|paths|, i requires 0 <= i < |paths| => (CorrectedKey(prefix, Join(paths[i].0)), paths[i].1))
  }

  lemma JoinedAppend(prefix: Option<string>, a: seq<(seq<string>, string)>, b: seq<(seq<string>, string)>)
    ensures Joined(prefix, a + b) == Joined(prefix, a) + Joined(prefix, b)
  {
    var l, r := Joined(prefix, a + b), Joined(prefix, a) + Joined(prefix, b);
    forall i | 0 <= i < |l| ensures l[i] == r[i] {
      if i >= |a| {
        assert (a + b)[i] == b[i - |a|];
      }
    }
  }

  /** Joining a nested path under the member's key is joining the path with
      the key in front. */
  lemma PrefixedJoined(prefix: Option<string>, key: string, paths: seq<(seq<string>, string)>)
    requires forall i | 0 <= i < |paths| :: paths[i].0 != []
    ensures Joined(Some(CorrectedKey(prefix, key)), paths) == Joined(prefix, Prefixed(key, paths))
  {
    var l, r := Joined(Some(CorrectedKey(prefix, key)), paths), Joined(prefix, Prefixed(key, paths));
    forall i | 0 <= i < |l| ensures l[i] == r[i] {
      var path := paths[i].0;
      assert ([key] + path)[1..] == path;
      assert Join([key] + path) == key + "." + Join(path);
      if prefix.Some? {
        var p := prefix.value;
        assert p + "." + (key + "." + Join(path)) == (p + "." + key) + "." + Join(path);
      }
    }
  }

  /** With the correction, every key written is a root-to-leaf path joined by
      ".", and every leaf is written once, in visiting order. */
  lemma {:induction false} CorrectedKeysAreJoinedPaths(prefix: Option<string>, members: seq<Member>)
    ensures CorrectedLeaves(prefix, members) == Joined(prefix, Paths(members))
    decreases members
  {
    if members != [] {
      var key := members[0].key;
      var newKey := CorrectedKey(prefix, key);
      CorrectedKeysAreJoinedPaths(prefix, members[1..]);
      var here := match members[0].value
                  case Leaf(text) => [([key], text)]
                  case Object(nested) => Prefixed(key, Paths(nested));
      var mine := match members[0].value
                  case Leaf(text) => [(newKey, text)]
                  case Object(nested) => CorrectedLeaves(Some(newKey), nested);
      if members[0].value.Object? {
        var nested := members[0].value.members;
        CorrectedKeysAreJoinedPaths(Some(newKey), nested);
        PathsStartAtKeys(nested);
        PrefixedJoined(prefix, key, Paths(nested));
      }
      assert mine == Joined(prefix, here);
      assert Paths(members) == here + Paths(members[1..]);
      JoinedAppend(prefix, here, Paths(members[1..]));
    }
  }

  /** As written, a key below the top is the prefix, ".", and the rest of the
      path joined, exactly as with the correction. */
  lemma {:induction false} NestedKeysAgree(prefix: string, members: seq<Member>)
    requires prefix != ""
    ensures Leaves(prefix, members) == CorrectedLeaves(Some(prefix), members)
    decreases members
  {
    if members != [] {
      NestedKeysAgree(prefix, members[1..]);
      if members[0].value.Object? {
        NestedKeysAgree(FullKey(prefix, members[0].key), members[0].value.members);
      }
    }
  }

  /** The code as written and the correction write the same pairs unless a
      top-level member with the empty key holds an object. */
  lemma {:induction false} AsWrittenAgreesWithCorrected(members: seq<Member>)
    requires forall i | 0 <= i < |members| :: members[i].key == "" ==> members[i].value.Leaf?
    ensures Leaves("", members) == CorrectedLeaves(None, members)
  {
    if members != [] {
      assert forall i | 0 <= i < |members[1..]| :: members[1..][i] == members[i + 1];
      AsWrittenAgreesWithCorrected(members[1..]);
      if members[0].value.Object? {
        NestedKeysAgree(members[0].key, members[0].value.members);
      }
    }
  }

  lemma {:induction false} KeysOfSnoc(pairs: seq<(string, string)>)
    requires pairs != []
    ensures KeysOf(pairs) == KeysOf(pairs[..|pairs| - 1]) + {pairs[|pairs| - 1].0}
  {
    var init := pairs[..|pairs| - 1];
    forall k | k in KeysOf(pairs) ensures k in KeysOf(init) + {pairs[|pairs| - 1].0} {
      var j :| 0 <= j < |pairs| && pairs[j].0 == k;
      if j < |pairs| - 1 {
        assert init[j] == pairs[j];
      }
    }
    forall k | k in KeysOf(init) ensures k in KeysOf(pairs) {
      var j :| 0 <= j < |init| && init[j].0 == k;
      assert pairs[j] == init[j];
    }
  }

  /** Pairs with distinct keys give a table with one entry per pair. */
  lemma {:induction false} DistinctKeysCount(pairs: seq<(string, string)>)
    requires forall i, j | 0 <= i < j < |pairs| :: pairs[i].0 != pairs[j].0
    ensures |ToMap(pairs).Keys| == |pairs|
  {
    ToMapKeys(pairs);
    if pairs != [] {
      var init := pairs[..|pairs| - 1];
      DistinctKeysCount(init);
      ToMapKeys(init);
      KeysOfSnoc(pairs);
      assert pairs[|pairs| - 1].0 !in KeysOf(init);
    }
  }

  /** With the correction, a tree with distinct keys per object and no dots in
      its keys flattens to a table with exactly one key per leaf. */
  lemma {:induction false} CorrectedKeepsEveryLeaf(members: seq<Member>)
    requires WellFormed(members) && NoDots(members)
    ensures |ToMap(CorrectedLeaves(None, members)).Keys| == |Paths(members)|
  {
    var paths := Paths(members);
    var pairs := CorrectedLeaves(None, members);
    CorrectedKeysAreJoinedPaths(None, members);
    PathsDistinct(members);
    PathsDotFree(members);
    PathsStartAtKeys(members);
    forall i, j | 0 <= i < j < |pairs| ensures pairs[i].0 != pairs[j].0 {
      if pairs[i].0 == pairs[j].0 {
        JoinInjective(paths[i].0, paths[j].0);
      }
    }
    DistinctKeysCount(pairs);
  }

  /** As written, the same holds as long as no top-level member with the
      empty key holds an object. */
  lemma {:induction false} FlattenKeepsEveryLeaf(members: seq<Member>)
    requires WellFormed(members) && NoDots(members)
    requires forall i | 0 <= i < |members| :: members[i].key == "" ==> members[i].value.Leaf?
    ensures |ToMap(Leaves("", members)).Keys| == |Paths(members)|
  {
    AsWrittenAgreesWithCorrected(members);
    CorrectedKeepsEveryLeaf(members);
  }

  /** The tree {"": {"a": "x"}, "a": "y"}: distinct keys, no dots, two leaves. */
  const EmptyKeyTree: seq<Member> := [Member("", Object([Member("a", Leaf("x"))])), Member("a", Leaf("y"))]

  /** As written, the nested leaf loses its empty parent key and collides with
      the top-level "a": the table keeps one of the two leaves. With the
      correction it is written under ".a" and both survive. */
  lemma {:induction false} EmptyTopLevelKeyCollides()
    ensures WellFormed(EmptyKeyTree) && NoDots(EmptyKeyTree) && |Paths(EmptyKeyTree)| == 2
    ensures ToMap(Leaves("", EmptyKeyTree)) == map["a" := Message("y")]
    ensures ToMap(CorrectedLeaves(None, EmptyKeyTree)) == map[".a" := Message("x"), "a" := Message("y")]
  {
    var t := EmptyKeyTree;
    assert t[1..] == [Member("a", Leaf("y"))] && t[1..][1..] == [];
    var nested := [Member("a", Leaf("x"))];
    assert nested[1..] == [];
    assert Keys(t[1..]) == {"a"};
    assert Paths(nested) == [(["a"], "x")];
    assert [""] + ["a"] == ["", "a"];
    assert Prefixed("", Paths(nested)) == [(["", "a"], "x")];
    assert Paths(t[1..]) == [(["a"], "y")];
    assert Paths(t) == [(["", "a"], "x"), (["a"], "y")];
    assert Leaves("", t) == [("a", "x"), ("a", "y")];
    assert [("a", "x"), ("a", "y")][..1] == [("a", "x")];
    assert "" + "." + "a" == ".a";
    assert CorrectedLeaves(Some(""), nested) == [(".a", "x")];
    assert CorrectedLeaves(None, t[1..]) == [("a", "y")];
    assert CorrectedLeaves(None, t) == [(".a", "x"), ("a", "y")];
    assert [(".a", "x"), ("a", "y")][..1] == [(".a", "x")];
  }
}
