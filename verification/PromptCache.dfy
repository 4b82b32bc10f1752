/** The prompt cache: sequence states kept by the exact prefix they absorbed, bounded by
  * entries and by bytes, evicted least recently used first. Keys stand for the prefix itself;
  * the digest the program uses is taken to be collision free. */
module PromptCaches {
  import opened Basics
  import opened Backend

  type Key = seq<Token>

  predicate Distinct(s: seq<Key>) {
    forall i, j :: 0 <= i < j < |s| ==> s[i] != s[j]
  }

  /** `s` without its occurrences of `x`, in order. */
  function Without(s: seq<Key>, x: Key): (r: seq<Key>)
    ensures x !in r
    ensures forall y :: y in r <==> y in s && y != x
    ensures |r| <= |s|
    ensures Distinct(s) ==> Distinct(r)
  {
    if s == [] then [] else
      var rest := Without(s[1..], x);
      assert forall y :: y in s <==> y == s[0] || y in s[1..];
      assert Distinct(s) ==> Distinct(s[1..]) && s[0] !in s[1..];
      if s[0] == x then rest else [s[0]] + rest
  }

  /** Bytes the entries named by `order` hold. */
  function Total(entries: map<Key, SeqState>, order: seq<Key>): nat
    requires forall k :: k in order ==> k in entries
  {
    if order == [] then 0 else entries[order[0]].bytes + Total(entries, order[1..])
  }

  lemma {:induction false} TotalLocal(e1: map<Key, SeqState>, e2: map<Key, SeqState>, order: seq<Key>)
    requires forall k :: k in order ==> k in e1 && k in e2 && e1[k] == e2[k]
    ensures Total(e1, order) == Total(e2, order)
  {
    if order != [] {
      TotalLocal(e1, e2, order[1..]);
    }
  }

  lemma {:induction false} TotalAppend(entries: map<Key, SeqState>, order: seq<Key>, x: Key)
    requires forall k :: k in order + [x] ==> k in entries
    ensures forall k :: k in order ==> k in entries
    ensures x in entries && Total(entries, order + [x]) == Total(entries, order) + entries[x].bytes
  {
    assert x in order + [x];
    forall k | k in order ensures k in order + [x] {}
    if order == [] {
      assert order + [x] == [x];
      assert [x][1..] == [];
    } else {
      assert (order + [x])[1..] == order[1..] + [x];
      forall k | k in order[1..] + [x] ensures k in order + [x] {}
      TotalAppend(entries, order[1..], x);
    }
  }

  lemma {:induction false} TotalWithout(entries: map<Key, SeqState>, order: seq<Key>, x: Key)
    requires forall k :: k in order ==> k in entries
    requires Distinct(order)
    ensures Total(entries, order) == Total(entries, Without(order, x)) + if x in order then entries[x].bytes else 0
  {
    if order != [] {
      assert forall y :: y in order <==> y == order[0] || y in order[1..];
      TotalWithout(entries, order[1..], x);
      if order[0] == x {
        assert x !in order[1..];
      } else {
        var rest := Without(order[1..], x);
        assert Without(order, x) == [order[0]] + rest;
        assert ([order[0]] + rest)[1..] == rest;
      }
    }
  }

  class PromptCache {
    const capacity: nat
    const budget: nat
    var entries: map<Key, SeqState>
    var lru: seq<Key>
    var bytes: nat
    var hits: nat
    var misses: nat

    constructor (capacity: nat, budget: nat)
      ensures Valid() && entries == map[] && lru == []
      ensures this.capacity == Max(capacity, 1) && this.budget == budget
    {
      this.capacity := Max(capacity, 1);
      this.budget := budget;
      entries := map[];
      lru := [];
      bytes := 0;
      hits := 0;
      misses := 0;
    }

    /** The recency list names each entry once, the byte count is the entries' bytes, both
      * bounds hold, and every entry describes exactly the prefix it is filed under. */
    ghost predicate Valid()
      reads this
    {
      && capacity >= 1
      && Distinct(lru)
      && (forall k :: k in lru <==> k in entries)
      && bytes == Total(entries, lru)
      && |lru| <= capacity && bytes <= budget
      && (forall k :: k in entries ==> entries[k].tokens == k && !entries[k].HasSpill())
    }

    /** A hit hands out a copy under a fresh identity and makes the entry the most recent. */
    method Get(tokens: Key, freshId: nat) returns (r: Option<SeqState>)
      requires Valid()
      modifies this
      ensures Valid() && entries == old(entries)
      ensures tokens in entries ==> r == Some(entries[tokens].(id := freshId)) && lru == Without(old(lru), tokens) + [tokens]
      ensures tokens !in entries ==> r == None && lru == old(lru)
    {
      if tokens !in entries {
        misses := misses + 1;
        return None;
      }
      var state := entries[tokens];
      hits := hits + 1;
      TotalWithout(entries, lru, tokens);
      TotalAppend(entries, Without(lru, tokens), tokens);
      OneFewer(lru, tokens);
      lru := Without(lru, tokens) + [tokens];
      r := Some(state.(id := freshId));
    }

    /** Whether the entries named by `order` respect both bounds. */
    ghost predicate Fits(all: map<Key, SeqState>, order: seq<Key>)
      requires forall k :: k in order ==> k in all
    {
      |order| <= capacity && Total(all, order) <= budget
    }

    /** The state between filing an entry and evicting: everything holds but the bounds. */
    ghost predicate Consistent()
      reads this
    {
      && Distinct(lru)
      && (forall k :: k in lru <==> k in entries)
      && bytes == Total(entries, lru)
      && (forall k :: k in entries ==> entries[k].tokens == k && !entries[k].HasSpill())
    }

    /** Drop whatever is filed under `tokens`. */
    method Forget(tokens: Key)
      requires Consistent()
      modifies this`entries, this`lru, this`bytes
      ensures Consistent()
      ensures entries == old(entries) - {tokens} && lru == Without(old(lru), tokens)
    {
      TotalWithout(entries, lru, tokens);
      if tokens in entries {
        TotalLocal(entries, entries - {tokens}, Without(lru, tokens));
        bytes := bytes - entries[tokens].bytes;
        entries := entries - {tokens};
        lru := Without(lru, tokens);
      } else {
        Unchanged(lru, tokens);
        assert entries == entries - {tokens};
      }
    }

    method Push(tokens: Key, state: SeqState)
      requires Consistent() && tokens !in entries && state.tokens == tokens && !state.HasSpill()
      modifies this`entries, this`lru, this`bytes
      ensures Consistent()
      ensures entries == old(entries)[tokens := state] && lru == old(lru) + [tokens]
    {
      TotalLocal(entries, entries[tokens := state], lru);
      TotalAppend(entries[tokens := state], lru, tokens);
      entries := entries[tokens := state];
      bytes := bytes + state.bytes;
      lru := lru + [tokens];
    }

    method EvictOldest()
      requires Consistent() && lru != []
      modifies this`entries, this`lru, this`bytes
      ensures Consistent()
      ensures lru == old(lru)[1..] && entries == old(entries) - {old(lru)[0]}
    {
      var victim := lru[0];
      assert forall k :: k in lru <==> k == victim || k in lru[1..];
      TotalLocal(entries, entries - {victim}, lru[1..]);
      bytes := bytes - entries[victim].bytes;
      entries := entries - {victim};
      lru := lru[1..];
    }

    /** `rest` is what remains of `order` once exactly as many of its oldest entries are gone as
      * the bounds demand. */
    ghost predicate Evicted(all: map<Key, SeqState>, order: seq<Key>, rest: seq<Key>)
      requires forall k :: k in order ==> k in all
    {
      exists n :: EvictedBy(all, order, rest, n)
    }

    ghost predicate EvictedBy(all: map<Key, SeqState>, order: seq<Key>, rest: seq<Key>, n: nat)
      requires forall k :: k in order ==> k in all
    {
      n < |order| && rest == order[n..] && (n == 0 || !Fits(all, order[n - 1..]))
    }

    lemma EvictMore(all: map<Key, SeqState>, order: seq<Key>, rest: seq<Key>, n: nat)
      requires (forall k :: k in order ==> k in all) && EvictedBy(all, order, rest, n)
      requires forall k :: k in rest ==> k in all
      requires !Fits(all, rest) && n + 1 < |order|
      ensures EvictedBy(all, order, rest[1..], n + 1)
    {
      assert rest[1..] == order[n + 1..];
    }

    /** Evict from the least recent end until both bounds hold, and no further. */
    method EvictToFit()
      requires Consistent() && capacity >= 1 && lru != [] && entries[lru[|lru| - 1]].bytes <= budget
      modifies this`entries, this`lru, this`bytes
      ensures Valid() && Consistent() && lru != [] && Evicted(old(entries), old(lru), lru)
      ensures forall k :: k in entries ==> k in old(entries) && entries[k] == old(entries[k])
    {
      ghost var order, all, n := lru, entries, 0;
      hide Distinct, Total, EvictedBy;
      assert Evicting(all, order, n) by {
        Members();
        assert order[0..] == order;
        FirstEvicted(all, order);
      }
      while |lru| > capacity || bytes > budget
        invariant Evicting(all, order, n)
        decreases |lru|
      {
        EvictNext(all, order, n);
        n := n + 1;
      }
      NothingOver(all, order, n);
    }

    lemma FirstEvicted(all: map<Key, SeqState>, order: seq<Key>)
      requires order != [] && forall k :: k in order ==> k in all
      ensures EvictedBy(all, order, order, 0)
    {
    }

    /** The `n` oldest are gone, and each had to go. */
    ghost predicate Evicting(all: map<Key, SeqState>, order: seq<Key>, n: nat)
      reads this
    {
      && Consistent() && capacity >= 1 && order != [] && (forall k :: k in order ==> k in all)
      && all[order[|order| - 1]].bytes <= budget
      && EvictedBy(all, order, lru, n) && forall k :: k in entries ==> k in all && entries[k] == all[k]
    }

    method EvictNext(ghost all: map<Key, SeqState>, ghost order: seq<Key>, ghost n: nat)
      requires Evicting(all, order, n) && (|lru| > capacity || bytes > budget)
      modifies this`entries, this`lru, this`bytes
      ensures Evicting(all, order, n + 1) && |lru| < |old(lru)|
    {
      hide Distinct, Total;
      LastAlone(all, order, n);
      TotalLocal(all, entries, lru);
      EvictMore(all, order, lru, n);
      EvictOldest();
    }

    lemma NothingOver(all: map<Key, SeqState>, order: seq<Key>, n: nat)
      requires Evicting(all, order, n) && |lru| <= capacity && bytes <= budget
      ensures Valid() && Consistent() && lru != [] && Evicted(all, order, lru)
      ensures forall k :: k in entries ==> k in all && entries[k] == all[k]
    {
      hide Distinct, Total;
    }

    lemma Members()
      requires Consistent()
      ensures forall k :: k in lru <==> k in entries
    {
    }

    lemma EvictedKeepsLast(all: map<Key, SeqState>, order: seq<Key>, rest: seq<Key>)
      requires (forall k :: k in order ==> k in all) && Evicted(all, order, rest)
      ensures order != [] && rest != [] && rest[|rest| - 1] == order[|order| - 1]
    {
      var n :| EvictedBy(all, order, rest, n);
    }

    /** File `state` under `tokens`, evicting from the least recent end exactly as many
      * entries as the bounds demand; the entry just filed is never one of them. */
    method Insert(tokens: Key, state: SeqState)
      requires Valid() && state.tokens == tokens
      modifies this
      ensures Valid()
      ensures state.HasSpill() || state.bytes > budget ==> entries == old(entries) && lru == old(lru)
      ensures !state.HasSpill() && state.bytes <= budget ==>
        var order := Without(old(lru), tokens) + [tokens];
        var all := old(entries)[tokens := state];
        && tokens in entries && entries[tokens] == state
        && (forall k :: k in order ==> k in all)
        && Evicted(all, order, lru)
      ensures forall k :: k in entries && k != tokens ==> k in old(entries) && entries[k] == old(entries[k])
    {
      if state.HasSpill() {
        return;
      }
      if state.bytes > budget {
        return;
      }
      assert Consistent() && capacity >= 1;
      hide Valid, Consistent, Without, SeqState.HasSpill;
      File(tokens, state);
    }

    method File(tokens: Key, state: SeqState)
      requires Consistent() && capacity >= 1 && state.tokens == tokens && !state.HasSpill() && state.bytes <= budget
      modifies this`entries, this`lru, this`bytes
      ensures Valid()
      ensures
        var order := Without(old(lru), tokens) + [tokens];
        var all := old(entries)[tokens := state];
        && tokens in entries && entries[tokens] == state
        && (forall k :: k in order ==> k in all)
        && Evicted(all, order, lru)
      ensures forall k :: k in entries && k != tokens ==> k in old(entries) && entries[k] == old(entries[k])
    {
      hide *;
      Forget(tokens);
      Push(tokens, state);
      assert entries == old(entries)[tokens := state];
      assert lru[|lru| - 1] == tokens;
      label Filed:
      assert Consistent() && forall k :: k in lru ==> k in entries by {
        Members();
      }
      EvictToFit();
      EvictedKeepsLast(old@Filed(entries), old@Filed(lru), lru);
      Members();
    }
  }

  lemma {:induction false} OneFewer(s: seq<Key>, x: Key)
    requires Distinct(s) && x in s
    ensures |Without(s, x)| == |s| - 1
  {
    if s[0] == x {
      assert x !in s[1..];
      Unchanged(s[1..], x);
    } else {
      OneFewer(s[1..], x);
    }
  }

  lemma {:induction false} Unchanged(s: seq<Key>, x: Key)
    requires x !in s
    ensures Without(s, x) == s
  {
    if s != [] {
      Unchanged(s[1..], x);
    }
  }

  /** The newest entry alone fits, so a bound that is still broken leaves something to evict. */
  lemma LastAlone(all: map<Key, SeqState>, order: seq<Key>, n: nat)
    requires n < |order| && forall k :: k in order ==> k in all
    ensures forall k :: k in order[n..] ==> k in all
    ensures n == |order| - 1 ==> order[n..] == [order[n]] && Total(all, order[n..]) == all[order[n]].bytes
  {
    if n == |order| - 1 {
      assert order[n..] == [order[n]];
      assert order[n..][1..] == [];
    }
  }
}
