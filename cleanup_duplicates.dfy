/**
 * `scripts/cleanup-duplicates.js`: a one-off maintenance script that reads
 * every document of the `transactions` collection group, groups them by
 * description, keeps one document per group and deletes the others. The
 * query and the deletions are Firestore calls: the documents are an input,
 * and the deletions are returned in the order the script issues them.
 */
module CleanupDuplicates {
  import opened Common

  /** A field of a Firestore document as JavaScript sees it. */
  datatype JsValue = Undefined | Null | Str(s: string)

  /** The fields the script reads; `id` is the document id (unique within one collection only). */
  datatype Doc = Doc(id: string, description: JsValue, provider: JsValue, categoryId: JsValue)

  const MissingDescription: string := "__MISSING_DESCRIPTION__"

  /** `value == null`: loose equality, true for null and undefined. */
  predicate IsNullish(v: JsValue) {
    v.Undefined? || v.Null?
  }

  /** `data.description || "__MISSING_DESCRIPTION__"`: a falsy description (missing, null, empty) takes the marker. */
  function DescKey(d: Doc): (r: string)
    ensures d.description.Str? && d.description.s != "" ==> r == d.description.s
    ensures !(d.description.Str? && d.description.s != "") ==> r == MissingDescription
  {
    if d.description.Str? && d.description.s != "" then d.description.s else MissingDescription
  }

  // ------------------------------------------------------------ grouping

  /**
   * The properties every plain object inherits from `Object.prototype`.
   * `byDescription` is a plain object, so for these keys the lookup finds
   * a truthy inherited value, no array is created, and `.push` throws.
   */
  const InheritedNames: set<string> := {
    "constructor", "__proto__", "hasOwnProperty", "isPrototypeOf", "propertyIsEnumerable",
    "toString", "toLocaleString", "valueOf",
    "__defineGetter__", "__defineSetter__", "__lookupGetter__", "__lookupSetter__"}

  /** Some document's key is an inherited property name, so the grouping loop throws. */
  predicate GroupingThrows(docs: seq<Doc>) {
    exists d :: d in docs && DescKey(d) in InheritedNames
  }

  /** The keys of `byDescription` in insertion order. */
  function Keys(s: seq<Doc>): seq<string>
  {
    if s == [] then []
    else
      var p := Keys(s[..|s|-1]);
      if DescKey(s[|s|-1]) in p then p else p + [DescKey(s[|s|-1])]
  }

  /** The documents with key `k`, in query order. */
  function GroupOf(s: seq<Doc>, k: string): seq<Doc>
  {
    if s == [] then []
    else GroupOf(s[..|s|-1], k) + (if DescKey(s[|s|-1]) == k then [s[|s|-1]] else [])
  }

  /** A key is listed exactly when some document has it, and each is listed once. */
  lemma {:induction false} KeysOf(s: seq<Doc>)
    ensures NoDuplicates(Keys(s))
    ensures forall k :: k in Keys(s) <==> exists d :: d in s && DescKey(d) == k
  {
    if s != [] {
      var init := s[..|s|-1];
      KeysOf(init);
      assert s == init + [s[|s|-1]];
      forall k ensures (exists d :: d in s && DescKey(d) == k) ==> k in Keys(s) {
        if d :| d in s && DescKey(d) == k {
          if d != s[|s|-1] {
            assert d in init;
          }
        }
      }
    }
  }

  /** A group holds exactly the documents of its key. */
  lemma {:induction false} GroupMembers(s: seq<Doc>, k: string)
    ensures forall d :: d in GroupOf(s, k) <==> d in s && DescKey(d) == k
  {
    if s != [] {
      var init := s[..|s|-1];
      GroupMembers(init, k);
      assert s == init + [s[|s|-1]];
    }
  }

  /** Appending a document grows its own group by one and leaves the others alone. */
  lemma GroupAppend(s: seq<Doc>, d: Doc, k: string)
    ensures GroupOf(s + [d], k) == GroupOf(s, k) + (if DescKey(d) == k then [d] else [])
  {
    assert (s + [d])[..|s + [d]| - 1] == s;
  }

  /** `Σ |group|` over the keys `ks`. */
  function SumSizes(s: seq<Doc>, ks: seq<string>): nat
  {
    if ks == [] then 0 else SumSizes(s, ks[..|ks|-1]) + |GroupOf(s, ks[|ks|-1])|
  }

  lemma {:induction false} SumSizesAppend(s: seq<Doc>, d: Doc, ks: seq<string>)
    requires NoDuplicates(ks)
    ensures SumSizes(s + [d], ks) == SumSizes(s, ks) + (if DescKey(d) in ks then 1 else 0)
  {
    if ks != [] {
      var init := ks[..|ks|-1];
      var k := ks[|ks|-1];
      assert NoDuplicates(init);
      SumSizesAppend(s, d, init);
      GroupAppend(s, d, k);
      assert ks == init + [k];
      assert DescKey(d) in ks <==> DescKey(d) in init || DescKey(d) == k;
      if DescKey(d) == k {
        assert DescKey(d) !in init;
      }
    }
  }

  /** Every document lands in exactly one group: the group sizes add up to the total. */
  lemma {:induction false} GroupsPartition(s: seq<Doc>)
    ensures SumSizes(s, Keys(s)) == |s|
  {
    if s != [] {
      var init := s[..|s|-1];
      var d := s[|s|-1];
      assert s == init + [d];
      GroupsPartition(init);
      KeysOf(init);
      if DescKey(d) in Keys(init) {
        assert Keys(s) == Keys(init);
        SumSizesAppend(init, d, Keys(init));
      } else {
        NewKeyPartition(init, d);
      }
    }
  }

  /** The step of `GroupsPartition` where the appended document opens a new group. */
  lemma NewKeyPartition(init: seq<Doc>, d: Doc)
    requires NoDuplicates(Keys(init)) && DescKey(d) !in Keys(init)
    requires SumSizes(init, Keys(init)) == |init|
    ensures SumSizes(init + [d], Keys(init + [d])) == |init| + 1
  {
    var s := init + [d];
    var k := DescKey(d);
    KeysAppendNew(init, d);
    SumSizesSnoc(s, Keys(init), k);
    SumSizesAppend(init, d, Keys(init));
    NewKeyEmptyGroup(init, k);
    GroupAppend(init, d, k);
  }

  lemma KeysAppendNew(init: seq<Doc>, d: Doc)
    requires DescKey(d) !in Keys(init)
    ensures Keys(init + [d]) == Keys(init) + [DescKey(d)]
  {
    assert (init + [d])[..|init|] == init;
  }

  lemma SumSizesSnoc(s: seq<Doc>, ks: seq<string>, k: string)
    ensures SumSizes(s, ks + [k]) == SumSizes(s, ks) + |GroupOf(s, k)|
  {
    assert (ks + [k])[..|ks|] == ks;
  }

  /** A key no document has yet has an empty group. */
  lemma NewKeyEmptyGroup(s: seq<Doc>, k: string)
    requires k !in Keys(s)
    ensures GroupOf(s, k) == []
  {
    KeysOf(s);
    GroupMembers(s, k);
  }

  /** The first loop's state after reading `prefix`: the keys in order, and each key's group. */
  ghost predicate Grouped(prefix: seq<Doc>, keys: seq<string>, byDescription: map<string, seq<Doc>>) {
    && keys == Keys(prefix)
    && (forall k :: k in byDescription <==> k in keys)
    && (forall k :: k in byDescription ==> byDescription[k] == GroupOf(prefix, k))
  }

  /** One step of the first loop: the document's key is listed if new, and its group grows by it. */
  lemma GroupedStep(prefix: seq<Doc>, doc: Doc, keys: seq<string>, before: map<string, seq<Doc>>,
                    after: map<string, seq<Doc>>)
    requires Grouped(prefix, keys, before)
    requires DescKey(doc) in after
    requires after[DescKey(doc)] == (if DescKey(doc) in before then before[DescKey(doc)] else []) + [doc]
    requires forall k :: k != DescKey(doc) ==> (k in after <==> k in before)
    requires forall k :: k != DescKey(doc) && k in before ==> after[k] == before[k]
    ensures Grouped(prefix + [doc], if DescKey(doc) in keys then keys else keys + [DescKey(doc)], after)
  {
    var desc := DescKey(doc);
    assert (prefix + [doc])[..|prefix|] == prefix;
    KeysOf(prefix);
    if desc !in before {
      NewKeyEmptyGroup(prefix, desc);
    }
    forall k | k in after ensures after[k] == GroupOf(prefix + [doc], k) {
      GroupAppend(prefix, doc, k);
    }
  }

  /**
   * The first loop: `byDescription` maps each key to its documents, and
   * `keys` lists the keys in the order `Object.entries` returns them. The
   * loop throws at the first document whose key is an inherited name.
   */
  method GroupByDescription(docs: seq<Doc>) returns (threw: bool, keys: seq<string>, byDescription: map<string, seq<Doc>>)
    ensures threw <==> GroupingThrows(docs)
    ensures !threw ==> keys == Keys(docs)
    ensures !threw ==> forall k :: k in byDescription <==> k in keys
    ensures !threw ==> forall k :: k in byDescription ==> byDescription[k] == GroupOf(docs, k)
  {
    threw := false;
    keys := [];
    byDescription := map[];
    var i := 0;
    while i < |docs|
      invariant 0 <= i <= |docs|
      invariant forall j :: 0 <= j < i ==> DescKey(docs[j]) !in InheritedNames
      invariant Grouped(docs[..i], keys, byDescription)
    {
      var doc := docs[i];
      var desc := DescKey(doc);
      if desc in InheritedNames {
        threw := true;
        return;
      }
      ghost var before := byDescription;
      if desc !in byDescription {
        byDescription := byDescription[desc := []];
      }
      byDescription := byDescription[desc := byDescription[desc] + [doc]];
      GroupedStep(docs[..i], doc, keys, before, byDescription);
      if desc !in keys {
        keys := keys + [desc];
      }
      assert docs[..i + 1] == docs[..i] + [doc];
      i := i + 1;
    }
    assert docs[..|docs|] == docs;
    assert !GroupingThrows(docs) by {
      forall d | d in docs ensures DescKey(d) !in InheritedNames {
        var j :| 0 <= j < |docs| && docs[j] == d;
      }
    }
  }

  // ------------------------------------------------------------ choosing the document to keep

  /**
   * Whether the scan switches from `current` to `candidate`: a provider
   * beats none; a category beats none when the providers are strictly
   * equal (`===`, under which null and undefined differ).
   */
  predicate Better(current: Doc, candidate: Doc)
    ensures Better(current, candidate) ==> !IsNullish(candidate.provider) || !IsNullish(candidate.categoryId)
    ensures Better(current, candidate) && !IsNullish(current.provider) ==>
              !IsNullish(candidate.provider) && IsNullish(current.categoryId) && !IsNullish(candidate.categoryId)
    ensures current == candidate ==> !Better(current, candidate)
  {
    (IsNullish(current.provider) && !IsNullish(candidate.provider))
    || (IsNullish(current.categoryId) && !IsNullish(candidate.categoryId) && current.provider == candidate.provider)
  }

  /** `bestDocToKeep` after the scan over a non-empty group. */
  function Best(g: seq<Doc>): (r: Doc)
    requires |g| > 0
    ensures r in g
  {
    if |g| == 1 then g[0]
    else
      var b := Best(g[..|g|-1]);
      if Better(b, g[|g|-1]) then g[|g|-1] else b
  }

  /** The kept document has a provider whenever any document of the group has one. */
  lemma {:induction false} BestHasProvider(g: seq<Doc>)
    requires |g| > 0
    ensures (exists d :: d in g && !IsNullish(d.provider)) ==> !IsNullish(Best(g).provider)
  {
    if |g| > 1 {
      var init := g[..|g|-1];
      BestHasProvider(init);
      if d :| d in g && !IsNullish(d.provider) {
        if d != g[|g|-1] {
          assert g == init + [g[|g|-1]];
          assert d in init;
        }
      }
    }
  }

  /** A kept document with a provider is only ever replaced by one with a provider. */
  lemma ProviderNeverLost(current: Doc, candidate: Doc)
    requires !IsNullish(current.provider) && Better(current, candidate)
    ensures !IsNullish(candidate.provider)
  {
  }

  /** One step of the second loop: the next document replaces the kept one exactly when it is better. */
  lemma BestStep(docs: seq<Doc>, i: nat)
    requires 1 <= i < |docs|
    ensures Best(docs[..i + 1]) == if Better(Best(docs[..i]), docs[i]) then docs[i] else Best(docs[..i])
  {
    assert docs[..i + 1][..i] == docs[..i];
  }

  /** The second loop over one group. */
  method ChooseBest(docs: seq<Doc>) returns (bestDocToKeep: Doc)
    requires |docs| > 0
    ensures bestDocToKeep == Best(docs)
  {
    bestDocToKeep := docs[0];
    var i := 1;
    while i < |docs|
      invariant 1 <= i <= |docs|
      invariant bestDocToKeep == Best(docs[..i])
    {
      BestStep(docs, i);
      if IsNullish(bestDocToKeep.provider) && !IsNullish(docs[i].provider) {
        bestDocToKeep := docs[i];
      } else if IsNullish(bestDocToKeep.categoryId) && !IsNullish(docs[i].categoryId)
                && bestDocToKeep.provider == docs[i].provider {
        bestDocToKeep := docs[i];
      }
      i := i + 1;
    }
    assert docs[..|docs|] == docs;
  }

  // ------------------------------------------------------------ deleting the others

  /** The documents of `g` whose id differs from `id`, in order. */
  function Others(g: seq<Doc>, id: string): seq<Doc>
  {
    if g == [] then [] else Others(g[..|g|-1], id) + (if g[|g|-1].id != id then [g[|g|-1]] else [])
  }

  lemma {:induction false} OthersMembers(g: seq<Doc>, id: string)
    ensures forall d :: d in Others(g, id) <==> d in g && d.id != id
  {
    if g != [] {
      OthersMembers(g[..|g|-1], id);
      assert g == g[..|g|-1] + [g[|g|-1]];
    }
  }

  /** The deletion loop over one group; `deleted` lists the documents deleted. */
  method DeleteOthers(docs: seq<Doc>, bestDocToKeep: Doc) returns (deleted: seq<Doc>, count: nat)
    ensures deleted == Others(docs, bestDocToKeep.id) && count == |deleted|
  {
    deleted := [];
    count := 0;
    var i := 0;
    while i < |docs|
      invariant 0 <= i <= |docs|
      invariant deleted == Others(docs[..i], bestDocToKeep.id) && count == |deleted|
    {
      assert docs[..i + 1][..i] == docs[..i];
      if docs[i].id != bestDocToKeep.id {
        deleted := deleted + [docs[i]];
        count := count + 1;
      }
      i := i + 1;
    }
    assert docs[..|docs|] == docs;
  }

  /** What one group contributes: nothing for a single document, otherwise every document but the kept one's id. */
  function GroupDeletions(g: seq<Doc>): seq<Doc>
  {
    if |g| > 1 then Others(g, Best(g).id) else []
  }

  /** The deletions over the keys `ks`, in order. */
  function DeletionsOver(s: seq<Doc>, ks: seq<string>): seq<Doc>
  {
    if ks == [] then [] else DeletionsOver(s, ks[..|ks|-1]) + GroupDeletions(GroupOf(s, ks[|ks|-1]))
  }

  /**
   * All the deletions the script issues: documents read, none with its
   * group's kept id, and every document of a group of two or more whose id
   * is not the kept one.
   */
  function Cleanup(docs: seq<Doc>): (r: seq<Doc>)
    ensures forall d :: d in r ==> d in docs && d in GroupOf(docs, DescKey(d)) && d.id != Best(GroupOf(docs, DescKey(d))).id
    ensures forall d :: d in docs && |GroupOf(docs, DescKey(d))| > 1 && d.id != Best(GroupOf(docs, DescKey(d))).id ==> d in r
  {
    DeletionsOverMembers(docs, Keys(docs));
    GroupsWithin(docs);
    forall d | d in docs && |GroupOf(docs, DescKey(d))| > 1 && d.id != Best(GroupOf(docs, DescKey(d))).id
      ensures d in DeletionsOver(docs, Keys(docs))
    {
      CleanupComplete(docs, d);
    }
    DeletionsOver(docs, Keys(docs))
  }

  /** A document of a group of two or more whose id is not the kept one is deleted. */
  lemma CleanupComplete(docs: seq<Doc>, d: Doc)
    requires d in docs && |GroupOf(docs, DescKey(d))| > 1 && d.id != Best(GroupOf(docs, DescKey(d))).id
    ensures d in DeletionsOver(docs, Keys(docs))
  {
    var k := DescKey(d);
    var g := GroupOf(docs, k);
    KeysOf(docs);
    GroupMembers(docs, k);
    OthersMembers(g, Best(g).id);
    DeletionsOverHas(docs, Keys(docs), k, d);
  }

  /** A deletion of the group of a listed key is among the deletions over the keys. */
  lemma {:induction false} DeletionsOverHas(s: seq<Doc>, ks: seq<string>, k: string, d: Doc)
    requires k in ks && d in GroupDeletions(GroupOf(s, k))
    ensures d in DeletionsOver(s, ks)
  {
    var init := ks[..|ks|-1];
    assert ks == init + [ks[|ks|-1]];
    if k != ks[|ks|-1] {
      DeletionsOverHas(s, init, k, d);
    }
  }

  /** Every group is drawn from the documents. */
  lemma GroupsWithin(s: seq<Doc>)
    ensures forall k, d :: d in GroupOf(s, k) ==> d in s
  {
    forall k ensures forall d :: d in GroupOf(s, k) ==> d in s {
      GroupMembers(s, k);
    }
  }

  /** One step of the group loop: the next key's group adds its deletions at the end. */
  lemma DeletionsOverStep(s: seq<Doc>, ks: seq<string>, i: nat)
    requires i < |ks|
    ensures DeletionsOver(s, ks[..i + 1]) == DeletionsOver(s, ks[..i]) + GroupDeletions(GroupOf(s, ks[i]))
  {
    assert ks[..i + 1][..i] == ks[..i];
  }

  /**
   * The whole script: whether it ends in its `catch` before deleting
   * anything, the deletions it issues, in order, and the `deletedCount` it
   * reports.
   */
  method Run(docs: seq<Doc>) returns (threw: bool, deletions: seq<Doc>, deletedCount: nat)
    ensures threw <==> GroupingThrows(docs)
    ensures threw ==> deletions == []
    ensures !threw ==> deletions == Cleanup(docs) && deletedCount == |deletions|
  {
    var keys, byDescription;
    threw, keys, byDescription := GroupByDescription(docs);
    deletions := [];
    deletedCount := 0;
    if threw {
      return;
    }
    var i := 0;
    while i < |keys|
      invariant 0 <= i <= |keys|
      invariant deletions == DeletionsOver(docs, keys[..i]) && deletedCount == |deletions|
    {
      var group := byDescription[keys[i]];
      assert group == GroupOf(docs, keys[i]);
      DeletionsOverStep(docs, keys, i);
      if |group| > 1 {
        var bestDocToKeep := ChooseBest(group);
        var deleted, count := DeleteOthers(group, bestDocToKeep);
        assert deleted == GroupDeletions(group);
        deletions := deletions + deleted;
        deletedCount := deletedCount + count;
      }
      i := i + 1;
    }
    assert keys[..|keys|] == keys;
  }

  // ------------------------------------------------------------ what the run guarantees

  /** Every deleted document belongs to its key's group and differs in id from that group's kept document. */
  lemma {:induction false} DeletionsOverMembers(s: seq<Doc>, ks: seq<string>)
    ensures forall d :: d in DeletionsOver(s, ks) ==>
              DescKey(d) in ks && d in GroupOf(s, DescKey(d)) && d.id != Best(GroupOf(s, DescKey(d))).id
  {
    if ks != [] {
      var init := ks[..|ks|-1];
      var k := ks[|ks|-1];
      DeletionsOverMembers(s, init);
      var g := GroupOf(s, k);
      assert ks == init + [k];
      forall d | d in DeletionsOver(s, ks)
        ensures DescKey(d) in ks && d in GroupOf(s, DescKey(d)) && d.id != Best(GroupOf(s, DescKey(d))).id
      {
        if d in GroupDeletions(g) {
          GroupMembers(s, k);
          OthersMembers(g, Best(g).id);
        } else {
          assert d in DeletionsOver(s, init);
        }
      }
    }
  }

  /** Every deleted document was read, and its group's kept document, which shares its description, survives. */
  lemma DeletedHasSurvivor(docs: seq<Doc>, d: Doc)
    requires d in Cleanup(docs)
    ensures d in docs && d in GroupOf(docs, DescKey(d))
    ensures var b := Best(GroupOf(docs, DescKey(d))); DescKey(b) == DescKey(d) && b !in Cleanup(docs)
  {
    DeletionsOverMembers(docs, Keys(docs));
    GroupMembers(docs, DescKey(d));
    var b := Best(GroupOf(docs, DescKey(d)));
    assert b in GroupOf(docs, DescKey(d));
  }

  /** No document is deleted whose id is that of its group's kept document. */
  lemma KeptNeverDeleted(docs: seq<Doc>, k: string)
    requires k in Keys(docs)
    ensures GroupOf(docs, k) != [] && Best(GroupOf(docs, k)) !in Cleanup(docs)
  {
    KeysOf(docs);
    var d :| d in docs && DescKey(d) == k;
    GroupMembers(docs, k);
    assert d in GroupOf(docs, k);
    DeletionsOverMembers(docs, Keys(docs));
  }

  // ------------------------------------------------------------ the count

  predicate UniqueIds(s: seq<Doc>) {
    forall i, j :: 0 <= i < |s| && 0 <= j < |s| && s[i].id == s[j].id ==> i == j
  }

  function CountId(g: seq<Doc>, id: string): nat
  {
    if g == [] then 0 else CountId(g[..|g|-1], id) + (if g[|g|-1].id == id then 1 else 0)
  }

  lemma {:induction false} OthersCount(g: seq<Doc>, id: string)
    ensures |Others(g, id)| + CountId(g, id) == |g|
  {
    if g != [] {
      OthersCount(g[..|g|-1], id);
    }
  }

  lemma {:induction false} CountIdZero(g: seq<Doc>, id: string)
    requires forall d :: d in g ==> d.id != id
    ensures CountId(g, id) == 0
  {
    if g != [] {
      assert g[|g|-1] in g;
      forall d | d in g[..|g|-1] ensures d.id != id {
        assert d in g;
      }
      CountIdZero(g[..|g|-1], id);
    }
  }

  /** Dropping the last document keeps the ids unique, and no earlier document shares its id. */
  lemma LastIdFresh(s: seq<Doc>)
    requires UniqueIds(s) && |s| > 0
    ensures UniqueIds(s[..|s|-1])
    ensures forall d :: d in s[..|s|-1] ==> d.id != s[|s|-1].id
  {
    var init := s[..|s|-1];
    forall i, j | 0 <= i < |init| && 0 <= j < |init| && init[i].id == init[j].id ensures i == j {
      assert s[i] == init[i] && s[j] == init[j];
    }
    forall d | d in init ensures d.id != s[|s|-1].id {
      var m :| 0 <= m < |init| && init[m] == d;
      assert s[m] == d;
    }
  }

  /** With unique ids, exactly one document of a group carries the kept document's id. */
  lemma {:induction false} CountIdOne(g: seq<Doc>, d: Doc)
    requires UniqueIds(g) && d in g
    ensures CountId(g, d.id) == 1
  {
    var init := g[..|g|-1];
    var last := g[|g|-1];
    assert g == init + [last];
    LastIdFresh(g);
    if last == d {
      CountIdZero(init, d.id);
    } else {
      assert d in init;
      CountIdOne(init, d);
    }
  }

  /** A group of a set of documents with unique ids has unique ids. */
  lemma {:induction false} GroupUniqueIds(s: seq<Doc>, k: string)
    requires UniqueIds(s)
    ensures UniqueIds(GroupOf(s, k))
  {
    if s != [] {
      var init := s[..|s|-1];
      var last := s[|s|-1];
      LastIdFresh(s);
      GroupUniqueIds(init, k);
      GroupMembers(init, k);
      var g := GroupOf(init, k);
      if DescKey(last) == k {
        AppendFreshId(g, last);
      }
    }
  }

  lemma AppendFreshId(g: seq<Doc>, last: Doc)
    requires UniqueIds(g) && forall d :: d in g ==> d.id != last.id
    ensures UniqueIds(g + [last])
  {
    var g2 := g + [last];
    forall i, j | 0 <= i < |g2| && 0 <= j < |g2| && g2[i].id == g2[j].id ensures i == j {
      if i < |g| {
        assert g2[i] in g;
      }
      if j < |g| {
        assert g2[j] in g;
      }
    }
  }

  /** Each group of unique ids loses all but one document. */
  lemma GroupDeletionsCount(g: seq<Doc>)
    requires |g| > 0 && UniqueIds(g)
    ensures |GroupDeletions(g)| == |g| - 1
  {
    if |g| > 1 {
      OthersCount(g, Best(g).id);
      CountIdOne(g, Best(g));
    }
  }

  lemma {:induction false} DeletionsOverCount(s: seq<Doc>, ks: seq<string>)
    requires UniqueIds(s)
    requires forall k :: k in ks ==> GroupOf(s, k) != []
    ensures |DeletionsOver(s, ks)| == SumSizes(s, ks) - |ks|
  {
    if ks != [] {
      var init := ks[..|ks|-1];
      var k := ks[|ks|-1];
      assert k in ks;
      forall k' | k' in init ensures GroupOf(s, k') != [] {
        assert k' in ks;
      }
      DeletionsOverCount(s, init);
      GroupUniqueIds(s, k);
      GroupDeletionsCount(GroupOf(s, k));
    }
  }

  /**
   * `deletedCount` is the number of documents minus the number of
   * descriptions, when the document ids are unique across the collection
   * group (the script compares ids only).
   */
  lemma DeletedCountIsTotalMinusGroups(docs: seq<Doc>)
    requires UniqueIds(docs)
    ensures |Cleanup(docs)| == |docs| - |Keys(docs)|
  {
    KeysOf(docs);
    forall k | k in Keys(docs) ensures GroupOf(docs, k) != [] {
      var d :| d in docs && DescKey(d) == k;
      GroupMembers(docs, k);
      assert d in GroupOf(docs, k);
    }
    DeletionsOverCount(docs, Keys(docs));
    GroupsPartition(docs);
  }
}
