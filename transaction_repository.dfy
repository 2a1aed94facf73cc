/**
 * `TransactionRepositoryImpl`: the in-memory transaction cache built from SMS
 * messages, the transaction -> category mapping cache, and the filters the
 * rest of the app queries it with.
 *
 * The transaction key is a name-based UUID of the originating message's
 * address, body and timestamp. The model keeps the text that is hashed
 * (`KeyInput`) and takes the hash, and the link from a transaction to the
 * message it came from, as the repository's `keyOf` function.
 */
module TransactionRepository {
  import opened Common

  // ------------------------------------------------------------ filtering

  predicate MatchesFilter(t: Transaction, year: Option<int>, month: Option<int>, isIncome: Option<bool>) {
    (year.None? || t.date.year == year.value)
    && (month.None? || t.date.month == month.value)
    && (isIncome.None? || t.isIncome == isIncome.value)
  }

  /** `filterTransactions`: a null criterion imposes no constraint. */
  function FilterTransactions(ts: seq<Transaction>, year: Option<int>, month: Option<int>, isIncome: Option<bool>)
    : (r: seq<Transaction>)
    ensures IsSubsequence(r, ts)
    ensures forall t :: t in r <==> t in ts && MatchesFilter(t, year, month, isIncome)
    ensures forall t :: multiset(r)[t] == if MatchesFilter(t, year, month, isIncome) then multiset(ts)[t] else 0
  {
    FilterIsSubsequence(ts, t => MatchesFilter(t, year, month, isIncome));
    FilterCounts(ts, t => MatchesFilter(t, year, month, isIncome));
    Filter(ts, t => MatchesFilter(t, year, month, isIncome))
  }

  /** With no criterion at all the filter returns its input unchanged. */
  lemma FilterWithoutCriteria(ts: seq<Transaction>)
    ensures FilterTransactions(ts, None, None, None) == ts
  {
    FilterAllKept(ts, t => MatchesFilter(t, None, None, None));
  }

  /** Kotlin `equals(other, ignoreCase = true)`. */
  predicate EqualsIgnoreCase(a: string, b: string) {
    LowerStr(a) == LowerStr(b)
  }

  predicate InCategoryOrUncategorized(t: Transaction, categoryId: string) {
    t.categoryId.None? || t.categoryId == Some(categoryId)
  }

  predicate InCategory(t: Transaction, categoryId: string) {
    t.categoryId == Some(categoryId)
  }

  /** The category that `getTransactionsByCategory` treats as "Other". */
  predicate IsOtherCategory(categories: seq<Category>, categoryId: string) {
    var c := Find(categories, (c: Category) => c.id == Some(categoryId));
    c.Some? && EqualsIgnoreCase(c.value.name, "Other")
  }

  /**
   * The filter of `getTransactionsByCategory`: for the category named
   * "Other" (any case) the uncategorised transactions are included as well.
   * `Repository.GetTransactionsByCategory` applies it to the answer of
   * `getTransactions`.
   */
  function TransactionsByCategory(ts: seq<Transaction>, categories: seq<Category>, categoryId: string)
    : (r: seq<Transaction>)
    ensures IsSubsequence(r, ts)
    ensures IsOtherCategory(categories, categoryId) ==>
              forall t :: t in r <==> t in ts && (t.categoryId.None? || t.categoryId == Some(categoryId))
    ensures !IsOtherCategory(categories, categoryId) ==>
              forall t :: t in r <==> t in ts && t.categoryId == Some(categoryId)
    ensures IsOtherCategory(categories, categoryId) ==>
              forall t :: multiset(r)[t] == if t.categoryId.None? || t.categoryId == Some(categoryId) then multiset(ts)[t] else 0
    ensures !IsOtherCategory(categories, categoryId) ==>
              forall t :: multiset(r)[t] == if t.categoryId == Some(categoryId) then multiset(ts)[t] else 0
  {
    if IsOtherCategory(categories, categoryId) then
      FilterIsSubsequence(ts, t => InCategoryOrUncategorized(t, categoryId));
      FilterCounts(ts, t => InCategoryOrUncategorized(t, categoryId));
      Filter(ts, t => InCategoryOrUncategorized(t, categoryId))
    else
      FilterIsSubsequence(ts, t => InCategory(t, categoryId));
      FilterCounts(ts, t => InCategory(t, categoryId));
      Filter(ts, t => InCategory(t, categoryId))
  }

  // ------------------------------------------------------------ keys

  /**
   * The text hashed into a transaction key: address, body and the message's
   * epoch milliseconds (written by `millisText`), joined by "_"; a missing
   * timestamp is written "null".
   */
  function KeyInput(address: string, body: string, dateTime: Option<Date>, millisText: Date -> string): string {
    address + "_" + body + "_" + (if dateTime.Some? then millisText(dateTime.value) else "null")
  }

  /**
   * An address without "_" is read back off the key text: two key texts
   * that agree have the same address and the same body-and-timestamp part.
   */
  lemma KeyInputSeparatesAddress(a1: string, b1: string, d1: Option<Date>, a2: string, b2: string, d2: Option<Date>,
                                 millisText: Date -> string)
    requires '_' !in a1 && '_' !in a2
    requires KeyInput(a1, b1, d1, millisText) == KeyInput(a2, b2, d2, millisText)
    ensures a1 == a2
    ensures b1 + "_" + (if d1.Some? then millisText(d1.value) else "null")
         == b2 + "_" + (if d2.Some? then millisText(d2.value) else "null")
  {
    var r1 := b1 + "_" + (if d1.Some? then millisText(d1.value) else "null");
    var r2 := b2 + "_" + (if d2.Some? then millisText(d2.value) else "null");
    assert KeyInput(a1, b1, d1, millisText) == a1 + ("_" + r1);
    assert KeyInput(a2, b2, d2, millisText) == a2 + ("_" + r2);
    SplitAtSeparator(a1, r1, a2, r2);
  }

  /** A text split at its first "_" has one head free of "_" and one tail. */
  lemma SplitAtSeparator(a1: string, r1: string, a2: string, r2: string)
    requires '_' !in a1 && '_' !in a2
    requires a1 + ("_" + r1) == a2 + ("_" + r2)
    ensures a1 == a2 && r1 == r2
  {
    var k := a1 + ("_" + r1);
    SeparatorNotEarlier(a1, r1, a2, r2);
    SeparatorNotEarlier(a2, r2, a1, r1);
    assert a1 == k[..|a1|] == a2;
    assert "_" + r1 == k[|a1|..] == "_" + r2;
    assert r1 == ("_" + r1)[1..] == ("_" + r2)[1..] == r2;
  }

  /** In `a1 + "_" + r1`, the first "_" comes right after an `a1` free of it, so no `a2` free of it is longer. */
  lemma SeparatorNotEarlier(a1: string, r1: string, a2: string, r2: string)
    requires '_' !in a1 && '_' !in a2
    requires a1 + ("_" + r1) == a2 + ("_" + r2)
    ensures |a2| <= |a1|
  {
    var k := a1 + ("_" + r1);
    assert forall i :: 0 <= i < |a2| ==> a2[i] in a2;
    assert k[|a1|] == '_';
    assert forall i :: 0 <= i < |a2| ==> k[i] == a2[i];
    if |a1| < |a2| {
      assert false;
    }
  }

  /**
   * Without that, the joined text is ambiguous: an address "a_b" with body
   * "c" and an address "a" with body "b_c" give the same key text, so the
   * `distinctBy` on keys keeps only one of the two messages.
   */
  lemma KeyInputAmbiguous(millisText: Date -> string)
    ensures KeyInput("a_b", "c", None, millisText) == KeyInput("a", "b_c", None, millisText)
  {
    assert KeyInput("a_b", "c", None, millisText) == "a_b_c_null";
    assert KeyInput("a", "b_c", None, millisText) == "a_b_c_null";
  }

  // ------------------------------------------------------------ distinctBy

  /** The keys of the elements of `s`. */
  function KeySet<T, K>(s: seq<T>, key: T -> K): (r: set<K>)
    ensures forall i :: 0 <= i < |s| ==> key(s[i]) in r
  {
    if s == [] then {} else {key(s[0])} + KeySet(s[1..], key)
  }

  predicate DistinctKeys<T, K(==)>(s: seq<T>, key: T -> K) {
    forall i, j :: 0 <= i < j < |s| ==> key(s[i]) != key(s[j])
  }

  /** Kotlin `distinctBy` after the keys `seen` have already been taken. */
  function DistinctByFrom<T, K(==)>(s: seq<T>, key: T -> K, seen: set<K>): (r: seq<T>) {
    if s == [] then []
    else if key(s[0]) in seen then DistinctByFrom(s[1..], key, seen)
    else [s[0]] + DistinctByFrom(s[1..], key, seen + {key(s[0])})
  }

  /**
   * `distinctBy` keeps one element per key: the kept keys are pairwise
   * distinct, none of them was already seen, and together with the seen
   * keys they are all the keys of the input.
   */
  lemma {:induction false} DistinctByFromKeys<T, K>(s: seq<T>, key: T -> K, seen: set<K>)
    ensures DistinctKeys(DistinctByFrom(s, key, seen), key)
    ensures forall i :: 0 <= i < |DistinctByFrom(s, key, seen)| ==> key(DistinctByFrom(s, key, seen)[i]) !in seen
    ensures KeySet(DistinctByFrom(s, key, seen), key) + seen == KeySet(s, key) + seen
  {
    if s != [] {
      var k0 := key(s[0]);
      assert KeySet(s, key) == {k0} + KeySet(s[1..], key);
      if k0 in seen {
        DistinctByFromKeys(s[1..], key, seen);
      } else {
        var rest := DistinctByFrom(s[1..], key, seen + {k0});
        DistinctByFromKeys(s[1..], key, seen + {k0});
        var r := [s[0]] + rest;
        assert r[1..] == rest;
        assert KeySet(r, key) == {k0} + KeySet(rest, key);
        forall i, j | 0 <= i < j < |r| ensures key(r[i]) != key(r[j]) {
          if i > 0 { assert r[i] == rest[i - 1] && r[j] == rest[j - 1]; }
          else { assert r[j] == rest[j - 1]; }
        }
        forall i | 0 <= i < |r| ensures key(r[i]) !in seen {
          if i > 0 { assert r[i] == rest[i - 1]; }
        }
      }
    }
  }

  /** Kotlin `distinctBy`: the first element of each key, in order. */
  function DistinctBy<T, K(==)>(s: seq<T>, key: T -> K): (r: seq<T>) {
    DistinctByFrom(s, key, {})
  }

  lemma {:induction false} DistinctByFromSubsequence<T, K>(s: seq<T>, key: T -> K, seen: set<K>)
    ensures IsSubsequence(DistinctByFrom(s, key, seen), s)
  {
    if s != [] {
      if key(s[0]) in seen {
        DistinctByFromSubsequence(s[1..], key, seen);
        SubsequenceDrop(DistinctByFrom(s, key, seen), s);
      } else {
        DistinctByFromSubsequence(s[1..], key, seen + {key(s[0])});
        assert ([s[0]] + DistinctByFrom(s[1..], key, seen + {key(s[0])}))[1..]
            == DistinctByFrom(s[1..], key, seen + {key(s[0])});
      }
    }
  }

  lemma {:induction false} DistinctByFromAppend<T, K>(a: seq<T>, b: seq<T>, key: T -> K, seen: set<K>)
    ensures DistinctByFrom(a + b, key, seen)
         == DistinctByFrom(a, key, seen) + DistinctByFrom(b, key, seen + KeySet(a, key))
  {
    if a == [] {
      assert a + b == b;
      assert seen + KeySet(a, key) == seen;
    } else {
      var k0 := key(a[0]);
      assert (a + b)[1..] == a[1..] + b;
      assert (a + b)[0] == a[0];
      assert KeySet(a, key) == {k0} + KeySet(a[1..], key);
      if k0 in seen {
        DistinctByFromAppend(a[1..], b, key, seen);
        assert seen + KeySet(a[1..], key) == seen + KeySet(a, key);
      } else {
        DistinctByFromAppend(a[1..], b, key, seen + {k0});
        assert seen + {k0} + KeySet(a[1..], key) == seen + KeySet(a, key);
        var x := DistinctByFrom(a[1..], key, seen + {k0});
        var y := DistinctByFrom(b, key, seen + KeySet(a, key));
        assert DistinctByFrom(a + b, key, seen) == [a[0]] + (x + y);
        assert [a[0]] + (x + y) == ([a[0]] + x) + y;
      }
    }
  }

  /** A list whose keys are already distinct and unseen passes through unchanged. */
  lemma {:induction false} DistinctByFromIdentity<T, K>(s: seq<T>, key: T -> K, seen: set<K>)
    requires DistinctKeys(s, key)
    requires forall i :: 0 <= i < |s| ==> key(s[i]) !in seen
    ensures DistinctByFrom(s, key, seen) == s
  {
    if s != [] {
      forall i | 0 <= i < |s[1..]| ensures key(s[1..][i]) !in seen + {key(s[0])} {
        assert s[1..][i] == s[i + 1];
      }
      DistinctByFromIdentity(s[1..], key, seen + {key(s[0])});
    }
  }

  /**
   * Merging a chunk into a cache with distinct keys keeps the cache first,
   * unchanged, and adds the new transactions whose key is new, once each.
   */
  lemma MergeKeepsCacheFirst<T, K>(cached: seq<T>, incoming: seq<T>, key: T -> K)
    requires DistinctKeys(cached, key)
    ensures DistinctBy(cached + incoming, key)
         == cached + DistinctByFrom(incoming, key, KeySet(cached, key))
    ensures DistinctKeys(DistinctBy(cached + incoming, key), key)
  {
    DistinctByFromAppend(cached, incoming, key, {});
    DistinctByFromIdentity(cached, key, {});
    DistinctByFromKeys(cached + incoming, key, {});
    assert {} + KeySet(cached, key) == KeySet(cached, key);
  }

  /** Merging chunk by chunk gives the same cache as merging everything at once. */
  lemma MergeChunksAssociative<T, K>(cached: seq<T>, c1: seq<T>, c2: seq<T>, key: T -> K)
    ensures DistinctBy(DistinctBy(cached + c1, key) + c2, key) == DistinctBy(cached + c1 + c2, key)
  {
    var d := DistinctBy(cached + c1, key);
    DistinctByFromKeys(cached + c1, key, {});
    DistinctByFromAppend(d, c2, key, {});
    DistinctByFromIdentity(d, key, {});
    DistinctByFromAppend(cached + c1, c2, key, {});
    assert KeySet(d, key) == KeySet(cached + c1, key) by {
      assert KeySet(d, key) + {} == KeySet(cached + c1, key) + {};
    }
    assert {} + KeySet(d, key) == KeySet(d, key);
    assert {} + KeySet(cached + c1, key) == KeySet(cached + c1, key);
  }

  // ------------------------------------------------------------ category assignment

  /**
   * One step of `applyCategoryAssignments`: a saved mapping wins; otherwise
   * the auto-assigned category's id is set, and recorded when it is present;
   * with no auto-assigned category nothing changes.
   */
  function AssignOne(t: Transaction, cache: map<string, string>, k: string, autoAssigned: Option<Category>)
    : (Transaction, map<string, string>)
  {
    if k in cache then (t.(categoryId := Some(cache[k])), cache)
    else match autoAssigned
      case None => (t, cache)
      case Some(c) => (t.(categoryId := c.id), if c.id.Some? then cache[k := c.id.value] else cache)
  }

  /** `applyCategoryAssignments` over `ts`, left to right, as the loop runs. */
  function AssignAll(ts: seq<Transaction>, cache: map<string, string>, keyOf: Transaction -> string,
                     assign: Transaction -> Option<Category>): (r: (seq<Transaction>, map<string, string>))
    ensures |r.0| == |ts|
    ensures cache.Keys <= r.1.Keys
  {
    if ts == [] then ([], cache)
    else
      var (prefix, c) := AssignAll(ts[..|ts| - 1], cache, keyOf, assign);
      var last := ts[|ts| - 1];
      var (t', c') := AssignOne(last, c, keyOf(last), assign(last));
      (prefix + [t'], c')
  }

  /** Entries already in the mapping cache are never overwritten. */
  lemma {:induction false} AssignAllKeepsSaved(ts: seq<Transaction>, cache: map<string, string>,
                                               keyOf: Transaction -> string, assign: Transaction -> Option<Category>, k: string)
    requires k in cache
    ensures AssignAll(ts, cache, keyOf, assign).1[k] == cache[k]
  {
    if ts != [] {
      AssignAllKeepsSaved(ts[..|ts| - 1], cache, keyOf, assign, k);
    }
  }

  /** Keys outside `ts` are left alone in the mapping cache. */
  lemma {:induction false} AssignAllOtherKeys(ts: seq<Transaction>, cache: map<string, string>,
                                              keyOf: Transaction -> string, assign: Transaction -> Option<Category>, k: string)
    requires forall i :: 0 <= i < |ts| ==> keyOf(ts[i]) != k
    ensures k in AssignAll(ts, cache, keyOf, assign).1 <==> k in cache
    ensures k in cache ==> AssignAll(ts, cache, keyOf, assign).1[k] == cache[k]
  {
    if ts != [] {
      AssignAllOtherKeys(ts[..|ts| - 1], cache, keyOf, assign, k);
    }
  }

  /**
   * With distinct keys (as the merge guarantees), every transaction is
   * treated against the mapping cache as it was before the pass: a saved
   * mapping gives exactly that id; otherwise the auto-assigned id is set
   * and recorded; with no auto-assigned category it is left as it was.
   */
  lemma {:induction false} AssignAllRule(ts: seq<Transaction>, cache: map<string, string>,
                                         keyOf: Transaction -> string, assign: Transaction -> Option<Category>, i: nat)
    requires DistinctKeys(ts, keyOf) && i < |ts|
    ensures AssignAll(ts, cache, keyOf, assign).0[i] == AssignOne(ts[i], cache, keyOf(ts[i]), assign(ts[i])).0
    ensures var k := keyOf(ts[i]);
            var r := AssignAll(ts, cache, keyOf, assign);
            k in cache ==> r.0[i].categoryId == Some(cache[k]) && r.1[k] == cache[k]
    ensures var k := keyOf(ts[i]);
            var r := AssignAll(ts, cache, keyOf, assign);
            k !in cache && assign(ts[i]).None? ==> r.0[i] == ts[i] && k !in r.1
    ensures var k := keyOf(ts[i]);
            var r := AssignAll(ts, cache, keyOf, assign);
            k !in cache && assign(ts[i]).Some? ==>
              r.0[i] == ts[i].(categoryId := assign(ts[i]).value.id)
              && (assign(ts[i]).value.id.Some? ==> k in r.1 && r.1[k] == assign(ts[i]).value.id.value)
  {
    var n := |ts| - 1;
    var init := ts[..n];
    assert DistinctKeys(init, keyOf);
    var k := keyOf(ts[i]);
    var (prefix, c) := AssignAll(init, cache, keyOf, assign);
    if i < n {
      AssignAllRule(init, cache, keyOf, assign, i);
      assert init[i] == ts[i];
      AssignAllSuffixKeeps(ts, cache, keyOf, assign, i);
    } else {
      forall j | 0 <= j < |init| ensures keyOf(init[j]) != k {
        assert init[j] == ts[j];
      }
      AssignAllOtherKeys(init, cache, keyOf, assign, k);
    }
  }

  /**
   * For a position `i` whose key no later transaction shares, the final
   * mapping-cache entry of that key is the one after step `i`.
   */
  lemma {:induction false} AssignAllSuffixKeeps(ts: seq<Transaction>, cache: map<string, string>,
                                                keyOf: Transaction -> string, assign: Transaction -> Option<Category>, i: nat)
    requires i < |ts|
    requires forall j :: i < j < |ts| ==> keyOf(ts[j]) != keyOf(ts[i])
    ensures var k := keyOf(ts[i]);
            var after := AssignAll(ts[..i + 1], cache, keyOf, assign).1;
            var final := AssignAll(ts, cache, keyOf, assign).1;
            (k in final <==> k in after) && (k in after ==> final[k] == after[k])
    decreases |ts|
  {
    if |ts| > i + 1 {
      var init := ts[..|ts| - 1];
      assert init[..i + 1] == ts[..i + 1];
      assert init[i] == ts[i];
      AssignAllSuffixKeeps(init, cache, keyOf, assign, i);
    } else {
      assert ts[..i + 1] == ts;
    }
  }

  /** One iteration of `applyCategoryAssignments`: the prefix grows by the updated transaction. */
  lemma AssignStep(ts: seq<Transaction>, before: seq<Transaction>, cache0: map<string, string>, cache1: map<string, string>,
                   keyOf: Transaction -> string, assign: Transaction -> Option<Category>, i: nat)
    requires i < |ts| == |before| && before[i..] == ts[i..]
    requires (before[..i], cache1) == AssignAll(ts[..i], cache0, keyOf, assign)
    ensures var step := AssignOne(ts[i], cache1, keyOf(ts[i]), assign(ts[i]));
            (before[i := step.0][..i + 1], step.1) == AssignAll(ts[..i + 1], cache0, keyOf, assign)
            && before[i := step.0][i + 1..] == ts[i + 1..]
  {
    assert ts[..i + 1][..i] == ts[..i];
    assert before[i] == ts[i];
    var step := AssignOne(ts[i], cache1, keyOf(ts[i]), assign(ts[i]));
    assert before[i := step.0][..i + 1] == before[..i] + [step.0];
    assert before[i := step.0][i + 1..] == before[i + 1..];
    assert before[i + 1..] == ts[i + 1..] by {
      assert before[i + 1..] == before[i..][1..];
    }
  }

  // ------------------------------------------------------------ the repository

  /** `getTransactionById` as a position: the first cached transaction with that key. */
  function IndexOfKey(ts: seq<Transaction>, keyOf: Transaction -> string, id: string): (r: Option<nat>)
    ensures r.Some? ==> r.value < |ts| && keyOf(ts[r.value]) == id
                        && forall j :: 0 <= j < r.value ==> keyOf(ts[j]) != id
    ensures r.None? ==> forall j :: 0 <= j < |ts| ==> keyOf(ts[j]) != id
  {
    FirstIndex(ts, (t: Transaction) => keyOf(t) == id)
  }

  class Repository {
    var cachedTransactions: seq<Transaction>
    /** The transaction-key -> category-id mappings (`transactionCategoryCache`). */
    var categoryCache: map<string, string>
    /** The hash of the message a transaction was extracted from. */
    const messageKey: Transaction -> string
    /** `generateTransactionKey`. */
    const keyOf: Transaction -> string

    /** The cached transactions never share a key: every write goes through the merge. */
    ghost predicate Valid()
      reads this
    {
      keyOf == TxKey(messageKey) && DistinctKeys(cachedTransactions, keyOf)
    }

    /** The cache starts empty; the mapping cache is loaded from preferences. */
    constructor (messageKey: Transaction -> string, savedMappings: map<string, string>)
      ensures Valid()
      ensures this.messageKey == messageKey
      ensures cachedTransactions == [] && categoryCache == savedMappings
    {
      this.messageKey := messageKey;
      this.keyOf := TxKey(messageKey);
      cachedTransactions := [];
      categoryCache := savedMappings;
    }

    function GetTransactionById(id: string): (r: Option<Transaction>)
      reads this
      ensures r.Some? <==> exists j :: 0 <= j < |cachedTransactions| && keyOf(cachedTransactions[j]) == id
      ensures r.Some? ==> keyOf(r.value) == id
                          && r == Some(cachedTransactions[IndexOfKey(cachedTransactions, keyOf, id).value])
    {
      match IndexOfKey(cachedTransactions, keyOf, id)
      case None => None
      case Some(i) => Some(cachedTransactions[i])
    }

    function GetSavedCategoryForTransaction(transactionId: string): (r: Option<string>)
      reads this
      ensures r.Some? <==> transactionId in categoryCache
      ensures r.Some? ==> r.value == categoryCache[transactionId]
    {
      if transactionId in categoryCache then Some(categoryCache[transactionId]) else None
    }

    method SaveCategoryForTransaction(transactionId: string, categoryId: string)
      modifies this
      ensures categoryCache == old(categoryCache)[transactionId := categoryId]
      ensures cachedTransactions == old(cachedTransactions)
    {
      categoryCache := categoryCache[transactionId := categoryId];
    }

    /** `processChunk`: the extracted transactions are merged after the cache, first key wins. */
    method ProcessChunk(extracted: seq<Transaction>)
      requires Valid()
      modifies this
      ensures Valid()
      ensures cachedTransactions == DistinctBy(old(cachedTransactions) + extracted, keyOf)
      ensures cachedTransactions
           == old(cachedTransactions) + DistinctByFrom(extracted, keyOf, KeySet(old(cachedTransactions), keyOf))
      ensures categoryCache == old(categoryCache)
    {
      MergeKeepsCacheFirst(cachedTransactions, extracted, keyOf);
      cachedTransactions := DistinctBy(cachedTransactions + extracted, keyOf);
    }

    /** `applyCategoryAssignments(cachedTransactions)`, one transaction at a time. */
    method ApplyCategoryAssignments(assign: Transaction -> Option<Category>)
      requires Valid()
      modifies this
      ensures Valid()
      ensures (cachedTransactions, categoryCache)
           == AssignAll(old(cachedTransactions), old(categoryCache), keyOf, assign)
    {
      ghost var ts := cachedTransactions;
      ghost var cache0 := categoryCache;
      var i := 0;
      while i < |cachedTransactions|
        invariant |cachedTransactions| == |ts| && 0 <= i <= |ts|
        invariant (cachedTransactions[..i], categoryCache) == AssignAll(ts[..i], cache0, keyOf, assign)
        invariant cachedTransactions[i..] == ts[i..]
        invariant forall j :: 0 <= j < |ts| ==> keyOf(cachedTransactions[j]) == keyOf(ts[j])
      {
        var t := cachedTransactions[i];
        assert t == ts[i];
        var transactionId := keyOf(t);
        ghost var cache1 := categoryCache;
        var saved := GetSavedCategoryForTransaction(transactionId);
        var updated := t;
        if saved.Some? {
          updated := t.(categoryId := Some(saved.value));
        } else {
          var assignedCategory := assign(t);
          if assignedCategory.Some? {
            updated := t.(categoryId := assignedCategory.value.id);
            if assignedCategory.value.id.Some? {
              SaveCategoryForTransaction(transactionId, assignedCategory.value.id.value);
            }
          }
        }
        assert (updated, categoryCache) == AssignOne(t, cache1, transactionId, assign(t));
        KeyUnchangedByAssignment(messageKey, t, updated.categoryId);
        assert updated == t.(categoryId := updated.categoryId);
        var before := cachedTransactions;
        cachedTransactions := cachedTransactions[i := updated];
        AssignStep(ts, before, cache0, cache1, keyOf, assign, i);
        i := i + 1;
      }
      assert ts[..|ts|] == ts;
      assert cachedTransactions[..i] == cachedTransactions;
      assert forall j, k :: 0 <= j < k < |ts| ==> keyOf(cachedTransactions[j]) != keyOf(cachedTransactions[k]);
    }

    /**
     * `assignCategoryToTransaction`: for a known key the first transaction
     * with that key gets the category and the mapping is saved; an unknown
     * key changes nothing and reports false.
     */
    method AssignCategoryToTransaction(transactionId: string, categoryId: string) returns (ok: bool)
      requires Valid()
      modifies this
      ensures Valid()
      ensures ok <==> exists j :: 0 <= j < |old(cachedTransactions)| && keyOf(old(cachedTransactions)[j]) == transactionId
      ensures ok ==> var i := IndexOfKey(old(cachedTransactions), keyOf, transactionId).value;
                     cachedTransactions == old(cachedTransactions)[i := old(cachedTransactions)[i].(categoryId := Some(categoryId))]
                     && categoryCache == old(categoryCache)[transactionId := categoryId]
      ensures !ok ==> cachedTransactions == old(cachedTransactions) && categoryCache == old(categoryCache)
    {
      var found := IndexOfKey(cachedTransactions, keyOf, transactionId);
      if found.Some? {
        var i := found.value;
        var t := cachedTransactions[i];
        KeyUnchangedByAssignment(messageKey, t, Some(categoryId));
        cachedTransactions := cachedTransactions[i := t.(categoryId := Some(categoryId))];
        SaveCategoryForTransaction(transactionId, categoryId);
        ok := true;
      } else {
        ok := false;
      }
    }

    /** `refreshSmsData`: chunks of 50 messages are extracted and merged, then categories applied. */
    method RefreshSmsData(hasPermission: bool, messages: seq<SmsMessage>,
                          extract: SmsMessage -> Option<Transaction>, assign: Transaction -> Option<Category>)
      requires Valid()
      modifies this
      ensures Valid()
      ensures !hasPermission ==> cachedTransactions == old(cachedTransactions) && categoryCache == old(categoryCache)
      ensures hasPermission ==>
                (cachedTransactions, categoryCache)
                == AssignAll(DistinctBy(old(cachedTransactions) + ExtractAll(messages, extract), keyOf),
                             old(categoryCache), keyOf, assign)
    {
      if !hasPermission {
        return;
      }
      ghost var start := cachedTransactions;
      var done := 0;
      assert messages[..0] == [] && start + ExtractAll([], extract) == start;
      DistinctByFromIdentity(start, keyOf, {});
      while done < |messages|
        invariant 0 <= done <= |messages|
        invariant Valid()
        invariant cachedTransactions == DistinctBy(start + ExtractAll(messages[..done], extract), keyOf)
        invariant categoryCache == old(categoryCache)
        decreases |messages| - done
      {
        var end := if done + 50 <= |messages| then done + 50 else |messages|;
        var chunk := messages[done..end];
        var extracted := ExtractAll(chunk, extract);
        ChunkStep(start, messages, done, end, extract, keyOf);
        ProcessChunk(extracted);
        done := end;
      }
      assert messages[..done] == messages;
      ApplyCategoryAssignments(assign);
    }

    /** `initializeTransactions`: saved categories are re-applied to a non-empty cache. */
    method InitializeTransactions(assign: Transaction -> Option<Category>)
      requires Valid()
      modifies this
      ensures Valid()
      ensures old(cachedTransactions) == [] ==>
                cachedTransactions == old(cachedTransactions) && categoryCache == old(categoryCache)
      ensures old(cachedTransactions) != [] ==>
                (cachedTransactions, categoryCache) == AssignAll(old(cachedTransactions), old(categoryCache), keyOf, assign)
    {
      if cachedTransactions != [] {
        ApplyCategoryAssignments(assign);
      }
    }

    /** `getTransactions`: an empty cache is filled from SMS, a full one gets its categories re-applied. */
    method GetTransactions(hasPermission: bool, messages: seq<SmsMessage>,
                           extract: SmsMessage -> Option<Transaction>, assign: Transaction -> Option<Category>)
      returns (r: seq<Transaction>)
      requires Valid()
      modifies this
      ensures Valid() && r == cachedTransactions
      ensures old(cachedTransactions) == [] ==>
                (hasPermission ==>
                   (r, categoryCache) == AssignAll(DistinctBy(ExtractAll(messages, extract), keyOf), old(categoryCache), keyOf, assign))
                && (!hasPermission ==> r == [] && categoryCache == old(categoryCache))
      ensures old(cachedTransactions) != [] ==>
                (r, categoryCache) == AssignAll(old(cachedTransactions), old(categoryCache), keyOf, assign)
    {
      if cachedTransactions == [] {
        RefreshSmsData(hasPermission, messages, extract, assign);
        assert old(cachedTransactions) + ExtractAll(messages, extract) == ExtractAll(messages, extract);
      } else {
        ApplyCategoryAssignments(assign);
      }
      r := cachedTransactions;
    }

    /**
     * `getTransactionsByCategory`: `getTransactions` runs first, then its
     * answer is filtered for the category; `categories` is the saved
     * category list it reads.
     */
    method GetTransactionsByCategory(categoryId: string, categories: seq<Category>, hasPermission: bool,
                                     messages: seq<SmsMessage>, extract: SmsMessage -> Option<Transaction>,
                                     assign: Transaction -> Option<Category>)
      returns (r: seq<Transaction>)
      requires Valid()
      modifies this
      ensures Valid()
      ensures r == TransactionsByCategory(cachedTransactions, categories, categoryId)
      ensures old(cachedTransactions) == [] ==>
                (hasPermission ==>
                   (cachedTransactions, categoryCache)
                   == AssignAll(DistinctBy(ExtractAll(messages, extract), keyOf), old(categoryCache), keyOf, assign))
                && (!hasPermission ==> r == [] && categoryCache == old(categoryCache))
      ensures old(cachedTransactions) != [] ==>
                (cachedTransactions, categoryCache) == AssignAll(old(cachedTransactions), old(categoryCache), keyOf, assign)
    {
      var transactions := GetTransactions(hasPermission, messages, extract, assign);
      r := TransactionsByCategory(transactions, categories, categoryId);
    }
  }

  /**
   * The key of a transaction as the repository computes it: a function of
   * the transaction's origin only, never of the category assigned to it.
   */
  function TxKey(messageKey: Transaction -> string): Transaction -> string {
    (t: Transaction) => messageKey(t.(categoryId := None))
  }

  lemma KeyUnchangedByAssignment(messageKey: Transaction -> string, t: Transaction, c: Option<string>)
    ensures TxKey(messageKey)(t.(categoryId := c)) == TxKey(messageKey)(t)
  {
    assert t.(categoryId := c).(categoryId := None) == t.(categoryId := None);
  }

  /** Merging the next chunk's transactions gives the cache of the longer prefix. */
  lemma ChunkStep<K>(start: seq<Transaction>, ms: seq<SmsMessage>, done: nat, end: nat,
                     extract: SmsMessage -> Option<Transaction>, key: Transaction -> K)
    requires done <= end <= |ms|
    ensures DistinctBy(DistinctBy(start + ExtractAll(ms[..done], extract), key) + ExtractAll(ms[done..end], extract), key)
         == DistinctBy(start + ExtractAll(ms[..end], extract), key)
  {
    var a, b := ExtractAll(ms[..done], extract), ExtractAll(ms[done..end], extract);
    MergeChunksAssociative(start, a, b, key);
    ExtractAllSplit(ms, done, end, extract);
    assert start + a + b == start + (a + b);
  }

  lemma ExtractAllSplit(ms: seq<SmsMessage>, done: nat, end: nat, extract: SmsMessage -> Option<Transaction>)
    requires done <= end <= |ms|
    ensures ExtractAll(ms[..end], extract) == ExtractAll(ms[..done], extract) + ExtractAll(ms[done..end], extract)
  {
    assert ms[..done] + ms[done..end] == ms[..end];
    ExtractAllAppend(ms[..done], ms[done..end], extract);
  }

  /** The transactions extracted from `ms`, the failed extractions dropped (`mapNotNull`). */
  function ExtractAll(ms: seq<SmsMessage>, extract: SmsMessage -> Option<Transaction>): seq<Transaction> {
    if ms == [] then []
    else (match extract(ms[0]) case Some(t) => [t] case None => []) + ExtractAll(ms[1..], extract)
  }

  lemma {:induction false} ExtractAllAppend(a: seq<SmsMessage>, b: seq<SmsMessage>, extract: SmsMessage -> Option<Transaction>)
    ensures ExtractAll(a + b, extract) == ExtractAll(a, extract) + ExtractAll(b, extract)
  {
    if a == [] {
      assert a + b == b;
    } else {
      assert (a + b)[1..] == a[1..] + b;
      ExtractAllAppend(a[1..], b, extract);
    }
  }
}
