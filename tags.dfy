/** The scaling group's tag list: four fixed tags, the tags from the optional
    `eks_extra_tags` hash, and Ruby's `uniq` by `Key` over "extra, then fixed". */
module Tags {
  import opened Wrappers
  import opened Cfn

  datatype Tag = Tag(key: string, value: Value, propagateAtLaunch: bool)

  /** The tags the assembler always builds, in the order it appends them. */
  function FixedTags(componentName: string): seq<Tag>
  {
    [ Tag("Name", Join("-", [Ref("EnvironmentName"), Str(componentName), Str("xx")]), true),
      Tag("Environment", Ref("EnvironmentName"), true),
      Tag("EnvironmentType", Ref("EnvironmentType"), true),
      Tag("Role", Str("eks"), true) ]
  }

  const FIXED_KEYS: set<string> := {"Name", "Environment", "EnvironmentType", "Role"}

  /** One tag per `eks_extra_tags` entry, key stringified, propagated at launch;
      no tags when the hash is not defined. */
  function ExtraTags(extra: Option<seq<(string, Value)>>): seq<Tag>
  {
    match extra
    case None => []
    case Some(entries) =>
      seq(|entries|, i requires 0 <= i < |entries| => Tag(entries[i].0, entries[i].1, true))
  }

  function KeysOf(ts: seq<Tag>): set<string>
  {
    if ts == [] then {} else {ts[0].key} + KeysOf(ts[1..])
  }

  /** No key occurs twice. */
  predicate DistinctKeys(ts: seq<Tag>)
  {
    ts == [] || (ts[0].key !in KeysOf(ts[1..]) && DistinctKeys(ts[1..]))
  }

  /** The number of tags with key `k`. */
  function Count(ts: seq<Tag>, k: string): nat
  {
    if ts == [] then 0 else (if ts[0].key == k then 1 else 0) + Count(ts[1..], k)
  }

  /** The first tag with key `k`. */
  function Lookup(ts: seq<Tag>, k: string): Option<Tag>
  {
    if ts == [] then None else if ts[0].key == k then Some(ts[0]) else Lookup(ts[1..], k)
  }

  /** `s` is `t` with some elements left out, the rest in their order. */
  predicate IsSubsequence(s: seq<Tag>, t: seq<Tag>)
    decreases |t|
  {
    if s == [] then true
    else if t == [] then false
    else if s[0] == t[0] then IsSubsequence(s[1..], t[1..])
    else IsSubsequence(s, t[1..])
  }

  /** The tags of `ts` whose key is not in `shadowed`, in order. */
  function Unshadowed(ts: seq<Tag>, shadowed: set<string>): seq<Tag>
  {
    if ts == [] then []
    else (if ts[0].key in shadowed then [] else [ts[0]]) + Unshadowed(ts[1..], shadowed)
  }

  /** Ruby's `uniq { |h| h[:Key] }` walking `ts` with the keys already `seen`:
      a tag is kept exactly when no earlier tag had its key. */
  function UniqFrom(ts: seq<Tag>, seen: set<string>): seq<Tag>
  {
    if ts == [] then []
    else if ts[0].key in seen then UniqFrom(ts[1..], seen)
    else [ts[0]] + UniqFrom(ts[1..], seen + {ts[0].key})
  }

  function UniqByKey(ts: seq<Tag>): seq<Tag>
  {
    UniqFrom(ts, {})
  }

  /** An independent reading of `uniq` by key: walking from the front, keep a
      tag exactly when no tag before it has its key. */
  function FirstOccurrences(ts: seq<Tag>): seq<Tag>
  {
    if ts == [] then []
    else
      var init := ts[..|ts| - 1];
      FirstOccurrences(init) + (if ts[|ts| - 1].key in KeysOf(init) then [] else [ts[|ts| - 1]])
  }

  /** Line 20: the extra tags first, then the fixed ones, deduplicated by key. */
  function MergedTags(componentName: string, extra: Option<seq<(string, Value)>>): seq<Tag>
  {
    UniqByKey(ExtraTags(extra) + FixedTags(componentName))
  }

  /** Lines 10-20 step by step, as the template builds its two arrays. */
  method BuildTags(componentName: string, extra: Option<seq<(string, Value)>>) returns (tags: seq<Tag>)
    ensures tags == MergedTags(componentName, extra)
  {
    var fixed: seq<Tag> := [];
    fixed := fixed + [Tag("Name", Join("-", [Ref("EnvironmentName"), Str(componentName), Str("xx")]), true)];
    fixed := fixed + [Tag("Environment", Ref("EnvironmentName"), true)];
    fixed := fixed + [Tag("EnvironmentType", Ref("EnvironmentType"), true)];
    fixed := fixed + [Tag("Role", Str("eks"), true)];
    var extraTags: seq<Tag> := [];
    if extra.Some? {
      var entries := extra.value;
      for i := 0 to |entries|
        invariant |extraTags| == i
        invariant forall j :: 0 <= j < i ==> extraTags[j] == Tag(entries[j].0, entries[j].1, true)
      {
        extraTags := extraTags + [Tag(entries[i].0, entries[i].1, true)];
      }
    }
    assert extraTags == ExtraTags(extra);
    assert fixed == FixedTags(componentName);
    tags := UniqByKey(extraTags + fixed);
  }

  // ---------------------------------------------------------------------
  // Facts about keys

  lemma {:induction false} KeysOfMember(ts: seq<Tag>, k: string)
    ensures k in KeysOf(ts) <==> exists i :: 0 <= i < |ts| && ts[i].key == k
  {
    if ts != [] {
      KeysOfMember(ts[1..], k);
      if k in KeysOf(ts[1..]) {
        var i :| 0 <= i < |ts[1..]| && ts[1..][i].key == k;
        assert ts[i + 1].key == k;
      }
      if exists i :: 0 <= i < |ts| && ts[i].key == k {
        var i :| 0 <= i < |ts| && ts[i].key == k;
        if i > 0 {
          assert ts[1..][i - 1].key == k;
        }
      }
    }
  }

  lemma {:induction false} KeysOfAppend(a: seq<Tag>, b: seq<Tag>)
    ensures KeysOf(a + b) == KeysOf(a) + KeysOf(b)
  {
    if a == [] {
      assert a + b == b;
    } else {
      assert (a + b)[1..] == a[1..] + b;
      KeysOfAppend(a[1..], b);
    }
  }

  /** DistinctKeys says what it promises: no two positions carry the same key. */
  lemma {:induction false} DistinctKeysAt(ts: seq<Tag>)
    requires DistinctKeys(ts)
    ensures forall i, j :: 0 <= i < j < |ts| ==> ts[i].key != ts[j].key
  {
    if ts != [] {
      DistinctKeysAt(ts[1..]);
      forall j | 0 < j < |ts|
        ensures ts[0].key != ts[j].key
      {
        KeysOfMember(ts[1..], ts[j].key);
        assert ts[1..][j - 1] == ts[j];
      }
      forall i, j | 0 < i < j < |ts|
        ensures ts[i].key != ts[j].key
      {
        assert ts[1..][i - 1] == ts[i] && ts[1..][j - 1] == ts[j];
      }
    }
  }

  lemma {:induction false} CountAbsent(ts: seq<Tag>, k: string)
    requires k !in KeysOf(ts)
    ensures Count(ts, k) == 0
  {
    if ts != [] {
      CountAbsent(ts[1..], k);
    }
  }

  /** In a list without repeated keys, every key present occurs exactly once. */
  lemma {:induction false} CountDistinct(ts: seq<Tag>, k: string)
    requires DistinctKeys(ts)
    ensures Count(ts, k) == if k in KeysOf(ts) then 1 else 0
  {
    if ts != [] {
      CountDistinct(ts[1..], k);
      if ts[0].key == k {
        CountAbsent(ts[1..], k);
      }
    }
  }

  lemma {:induction false} LookupAppend(a: seq<Tag>, b: seq<Tag>, k: string)
    ensures Lookup(a + b, k) == if k in KeysOf(a) then Lookup(a, k) else Lookup(b, k)
  {
    if a == [] {
      assert a + b == b;
    } else {
      assert (a + b)[0] == a[0] && (a + b)[1..] == a[1..] + b;
      LookupAppend(a[1..], b, k);
    }
  }

  lemma {:induction false} LookupFound(ts: seq<Tag>, k: string)
    requires k in KeysOf(ts)
    ensures Lookup(ts, k).Some? && Lookup(ts, k).value.key == k && Lookup(ts, k).value in ts
  {
    if ts[0].key != k {
      LookupFound(ts[1..], k);
    }
  }

  // ---------------------------------------------------------------------
  // Facts about the deduplication

  /** The walk keeps one tag per key not yet seen, and no key twice. */
  lemma {:induction false} UniqFromKeys(ts: seq<Tag>, seen: set<string>)
    ensures DistinctKeys(UniqFrom(ts, seen))
    ensures KeysOf(UniqFrom(ts, seen)) == KeysOf(ts) - seen
  {
    if ts != [] {
      var k0 := ts[0].key;
      if k0 in seen {
        UniqFromKeys(ts[1..], seen);
      } else {
        var rest := UniqFrom(ts[1..], seen + {k0});
        UniqFromKeys(ts[1..], seen + {k0});
        assert ([ts[0]] + rest)[1..] == rest;
      }
    }
  }

  lemma {:induction false} UniqFromSubsequence(ts: seq<Tag>, seen: set<string>)
    ensures IsSubsequence(UniqFrom(ts, seen), ts)
  {
    if ts != [] {
      var k0 := ts[0].key;
      if k0 in seen {
        UniqFromSubsequence(ts[1..], seen);
        SubsequenceDropHead(UniqFrom(ts[1..], seen), ts);
      } else {
        UniqFromSubsequence(ts[1..], seen + {k0});
        var rest := UniqFrom(ts[1..], seen + {k0});
        assert ([ts[0]] + rest)[0] == ts[0] && ([ts[0]] + rest)[1..] == rest;
      }
    }
  }

  lemma {:induction false} SubsequenceDropHead(s: seq<Tag>, t: seq<Tag>)
    requires t != [] && IsSubsequence(s, t[1..])
    ensures IsSubsequence(s, t)
    decreases |t|
  {
    if s != [] && s[0] == t[0] {
      SubsequenceTail(s, t[1..]);
      SubsequenceDropHead(s[1..], t[1..]);
    }
  }

  lemma {:induction false} SubsequenceTail(s: seq<Tag>, t: seq<Tag>)
    requires s != [] && IsSubsequence(s, t)
    ensures t != [] && IsSubsequence(s[1..], t[1..])
    decreases |t|
  {
    if s[0] != t[0] {
      SubsequenceTail(s, t[1..]);
      SubsequenceDropHead(s[1..], t[1..]);
    }
  }

  lemma {:induction false} SubsequenceMembers(s: seq<Tag>, t: seq<Tag>, x: Tag)
    requires IsSubsequence(s, t) && x in s
    ensures x in t
    decreases |t|
  {
    if s[0] == t[0] {
      if x != s[0] {
        assert x in s[1..];
        SubsequenceMembers(s[1..], t[1..], x);
      }
    } else {
      SubsequenceMembers(s, t[1..], x);
    }
  }

  /** For every key not already seen, the surviving tag is the first one. */
  lemma {:induction false} UniqFromLookup(ts: seq<Tag>, seen: set<string>, k: string)
    requires k !in seen
    ensures Lookup(UniqFrom(ts, seen), k) == Lookup(ts, k)
  {
    if ts != [] {
      var k0 := ts[0].key;
      if k0 in seen {
        UniqFromLookup(ts[1..], seen, k);
      } else {
        var rest := UniqFrom(ts[1..], seen + {k0});
        assert ([ts[0]] + rest)[0] == ts[0] && ([ts[0]] + rest)[1..] == rest;
        if k0 != k {
          UniqFromLookup(ts[1..], seen + {k0}, k);
        }
      }
    }
  }

  /** Deduplicating a concatenation deduplicates the first part, then the
      second part against every key of the first. */
  lemma {:induction false} UniqFromAppend(a: seq<Tag>, b: seq<Tag>, seen: set<string>)
    ensures UniqFrom(a + b, seen) == UniqFrom(a, seen) + UniqFrom(b, seen + KeysOf(a))
  {
    if a == [] {
      assert a + b == b;
      assert seen + KeysOf(a) == seen;
    } else {
      var k0 := a[0].key;
      assert (a + b)[0] == a[0] && (a + b)[1..] == a[1..] + b;
      if k0 in seen {
        UniqFromAppend(a[1..], b, seen);
        assert seen + KeysOf(a[1..]) == seen + KeysOf(a);
      } else {
        UniqFromAppend(a[1..], b, seen + {k0});
        assert seen + {k0} + KeysOf(a[1..]) == seen + KeysOf(a);
      }
    }
  }

  lemma {:induction false} UnshadowedIgnores(ts: seq<Tag>, shadowed: set<string>, k: string)
    requires k !in KeysOf(ts)
    ensures Unshadowed(ts, shadowed + {k}) == Unshadowed(ts, shadowed)
  {
    if ts != [] {
      UnshadowedIgnores(ts[1..], shadowed, k);
    }
  }

  /** On a list without repeated keys the walk is a plain filter. */
  lemma {:induction false} UniqFromDistinct(ts: seq<Tag>, seen: set<string>)
    requires DistinctKeys(ts)
    ensures UniqFrom(ts, seen) == Unshadowed(ts, seen)
  {
    if ts != [] {
      var k0 := ts[0].key;
      if k0 in seen {
        UniqFromDistinct(ts[1..], seen);
      } else {
        UniqFromDistinct(ts[1..], seen + {k0});
        UnshadowedIgnores(ts[1..], seen, k0);
      }
    }
  }

  /** The walk with a growing `seen` set keeps the same tags, in the same
      order, as the prefix-by-prefix filter. */
  lemma {:induction false} UniqByKeyFirstOccurrences(ts: seq<Tag>)
    ensures UniqByKey(ts) == FirstOccurrences(ts)
    decreases |ts|
  {
    if ts != [] {
      var init, last := ts[..|ts| - 1], ts[|ts| - 1];
      assert ts == init + [last];
      UniqByKeyFirstOccurrences(init);
      UniqFromAppend(init, [last], {});
      assert {} + KeysOf(init) == KeysOf(init);
      assert [last][1..] == [];
    }
  }

  /** What `uniq` by key promises of any list: no key twice, the same keys,
      the order of the input, and for each key its first tag. */
  lemma UniqByKeySpec(ts: seq<Tag>)
    ensures DistinctKeys(UniqByKey(ts))
    ensures forall i, j :: 0 <= i < j < |UniqByKey(ts)| ==> UniqByKey(ts)[i].key != UniqByKey(ts)[j].key
    ensures KeysOf(UniqByKey(ts)) == KeysOf(ts)
    ensures IsSubsequence(UniqByKey(ts), ts)
    ensures forall k :: Lookup(UniqByKey(ts), k) == Lookup(ts, k)
    ensures UniqByKey(ts) == FirstOccurrences(ts)
  {
    UniqByKeyFirstOccurrences(ts);
    UniqFromKeys(ts, {});
    DistinctKeysAt(UniqByKey(ts));
    UniqFromSubsequence(ts, {});
    forall k
      ensures Lookup(UniqByKey(ts), k) == Lookup(ts, k)
    {
      UniqFromLookup(ts, {}, k);
    }
  }

  // ---------------------------------------------------------------------
  // The merged tag list of line 20

  lemma FixedTagsDistinct(componentName: string)
    ensures DistinctKeys(FixedTags(componentName))
    ensures KeysOf(FixedTags(componentName)) == FIXED_KEYS
  {
    var f := FixedTags(componentName);
    var f1, f2, f3 := f[1..], f[2..], f[3..];
    assert f1[1..] == f2 && f2[1..] == f3 && f3[1..] == [];
    assert KeysOf(f3) == {"Role"};
    assert KeysOf(f2) == {"EnvironmentType", "Role"};
    assert KeysOf(f1) == {"Environment", "EnvironmentType", "Role"};
    assert DistinctKeys(f3);
    assert DistinctKeys(f2);
    assert DistinctKeys(f1);
  }

  /** The merged list is the deduplicated extra tags followed by the fixed tags
      whose keys no extra tag took, each part in its original order. */
  lemma MergedTagsShape(componentName: string, extra: Option<seq<(string, Value)>>)
    ensures MergedTags(componentName, extra)
         == UniqByKey(ExtraTags(extra))
          + Unshadowed(FixedTags(componentName), KeysOf(ExtraTags(extra)))
  {
    var e, f := ExtraTags(extra), FixedTags(componentName);
    UniqFromAppend(e, f, {});
    assert {} + KeysOf(e) == KeysOf(e);
    FixedTagsDistinct(componentName);
    UniqFromDistinct(f, KeysOf(e));
  }

  /** No two merged tags share a key, and the merged keys are the extra keys
      together with the four fixed ones. */
  lemma MergedTagsDistinct(componentName: string, extra: Option<seq<(string, Value)>>)
    ensures var m := MergedTags(componentName, extra);
      forall i, j :: 0 <= i < j < |m| ==> m[i].key != m[j].key
    ensures KeysOf(MergedTags(componentName, extra)) == KeysOf(ExtraTags(extra)) + FIXED_KEYS
  {
    var e, f := ExtraTags(extra), FixedTags(componentName);
    UniqByKeySpec(e + f);
    KeysOfAppend(e, f);
    FixedTagsDistinct(componentName);
  }

  /** Each of Name, Environment, EnvironmentType and Role occurs exactly once. */
  lemma MergedTagsFixedKeysOnce(componentName: string, extra: Option<seq<(string, Value)>>)
    ensures forall k :: k in FIXED_KEYS ==> Count(MergedTags(componentName, extra), k) == 1
  {
    var m := MergedTags(componentName, extra);
    MergedTagsDistinct(componentName, extra);
    UniqFromKeys(ExtraTags(extra) + FixedTags(componentName), {});
    forall k | k in FIXED_KEYS
      ensures Count(m, k) == 1
    {
      CountDistinct(m, k);
    }
  }

  /** An extra tag shadows the fixed tag with its key; a key no extra tag has
      keeps its fixed tag. Either way a key of the built tags has a surviving tag. */
  lemma MergedTagsExtraWins(componentName: string, extra: Option<seq<(string, Value)>>, k: string)
    ensures k in KeysOf(ExtraTags(extra)) ==>
      Lookup(MergedTags(componentName, extra), k) == Lookup(ExtraTags(extra), k)
    ensures k !in KeysOf(ExtraTags(extra)) ==>
      Lookup(MergedTags(componentName, extra), k) == Lookup(FixedTags(componentName), k)
    ensures k in KeysOf(ExtraTags(extra)) + FIXED_KEYS ==>
      Lookup(MergedTags(componentName, extra), k).Some? &&
      Lookup(MergedTags(componentName, extra), k).value.key == k
  {
    var e, f := ExtraTags(extra), FixedTags(componentName);
    UniqFromLookup(e + f, {}, k);
    LookupAppend(e, f, k);
    if k in KeysOf(e) {
      LookupFound(e, k);
    } else if k in FIXED_KEYS {
      FixedTagsDistinct(componentName);
      LookupFound(f, k);
    }
  }

  /** Every merged tag is one of the built tags, so each is propagated at launch. */
  lemma MergedTagsPropagate(componentName: string, extra: Option<seq<(string, Value)>>)
    ensures forall t :: t in MergedTags(componentName, extra) ==>
      t in ExtraTags(extra) + FixedTags(componentName) && t.propagateAtLaunch
  {
    var all := ExtraTags(extra) + FixedTags(componentName);
    UniqFromSubsequence(all, {});
    forall t | t in MergedTags(componentName, extra)
      ensures t in all && t.propagateAtLaunch
    {
      SubsequenceMembers(MergedTags(componentName, extra), all, t);
    }
  }
}
