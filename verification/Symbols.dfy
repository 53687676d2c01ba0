/** Definitions and queries of symbols by name (src/loader/loader.c:251-276,
  * 369-428): who gets which address, stated without the traversal. */
module Symbols {
  import opened Widths

  /** struct loader_symbol; a list of them is a sequence. */
  datatype Entry = Entry(name: string, isDefined: bool, addr: U64)

  /** A symbol of the image with a non-null value. */
  datatype Found = Found(name: string, addr: U64)

  predicate Defines(e: Entry, name: string) {
    e.isDefined && e.name == name
  }

  /** Index `i` holds the first entry that defines the name. */
  predicate FirstDefining(defs: seq<Entry>, name: string, i: nat) {
    && i < |defs| && defs[i].isDefined && defs[i].name == name
    && forall j :: 0 <= j < i ==> !(defs[j].isDefined && defs[j].name == name)
  }

  function FindDef(defs: seq<Entry>, name: string): (addr: U64)
    ensures forall i: nat :: FirstDefining(defs, name, i) ==> addr == defs[i].addr
    ensures (forall i :: 0 <= i < |defs| ==> !(defs[i].isDefined && defs[i].name == name)) ==> addr == 0
  {
    if defs == [] then 0
    else if Defines(defs[0], name) then defs[0].addr
    else
      var addr := FindDef(defs[1..], name);
      assert forall i: nat :: FirstDefining(defs, name, i) ==> i > 0 && FirstDefining(defs[1..], name, i - 1);
      addr
  }

  lemma FindDefStep(defs: seq<Entry>, i: nat, name: string)
    requires i < |defs|
    ensures FindDef(defs[i..], name) == if Defines(defs[i], name) then defs[i].addr else FindDef(defs[i + 1..], name)
  {
    assert defs[i..][1..] == defs[i + 1..];
  }

  /** sym_def_find. */
  method FindDefinition(defs: seq<Entry>, name: string) returns (addr: U64)
    ensures addr == FindDef(defs, name)
    ensures forall i: nat :: FirstDefining(defs, name, i) ==> addr == defs[i].addr
    ensures (forall i :: 0 <= i < |defs| ==> !(defs[i].isDefined && defs[i].name == name)) ==> addr == 0
  {
    var i := 0;
    assert defs[0..] == defs;
    while i < |defs|
      invariant 0 <= i <= |defs|
      invariant FindDef(defs[i..], name) == FindDef(defs, name)
    {
      FindDefStep(defs, i, name);
      if !defs[i].isDefined || name != defs[i].name {
        i := i + 1;
        continue;
      }
      return defs[i].addr;
    }
    return 0;
  }

  // --------------------------------------------------------------- queries

  predicate Asks(e: Entry, name: string) {
    !e.isDefined && e.name == name
  }

  /** The first undefined query of the name is defined. */
  function Answer(qs: seq<Entry>, f: Found): seq<Entry> {
    if qs == [] then []
    else if Asks(qs[0], f.name) then [qs[0].(isDefined := true, addr := f.addr)] + qs[1..]
    else [qs[0]] + Answer(qs[1..], f)
  }

  function AnswerAll(qs: seq<Entry>, fs: seq<Found>): seq<Entry> {
    if fs == [] then qs else Answer(AnswerAll(qs, fs[..|fs| - 1]), fs[|fs| - 1])
  }

  class SymbolList {
    var entries: seq<Entry>

    constructor (entries: seq<Entry>)
      ensures this.entries == entries
    {
      this.entries := entries;
    }

    /** The loop over the queries in assing_symbol_table. */
    method Define(f: Found)
      modifies this
      ensures entries == Answer(old(entries), f)
    {
      hide Answer;
      var i := 0;
      assert entries[0..] == entries && entries[..0] == [];
      while i < |entries|
        invariant 0 <= i <= |entries| && entries == old(entries)
        invariant entries[..i] + Answer(entries[i..], f) == Answer(entries, f)
      {
        AnswerStep(entries, i, f);
        if entries[i].isDefined || f.name != entries[i].name {
          i := i + 1;
          continue;
        }
        entries := entries[i := entries[i].(isDefined := true, addr := f.addr)];
        return;
      }
      AnswerNone(f);
      assert entries[i..] == [] && entries[..i] + [] == entries;
    }
  }

  lemma AnswerStep(qs: seq<Entry>, i: nat, f: Found)
    requires i < |qs|
    ensures qs[..i] + Answer(qs[i..], f) ==
            if Asks(qs[i], f.name) then qs[i := qs[i].(isDefined := true, addr := f.addr)] else qs[..i + 1] + Answer(qs[i + 1..], f)
  {
    assert qs[i..][1..] == qs[i + 1..];
    assert qs[..i + 1] == qs[..i] + [qs[i]];
  }

  lemma AnswerNone(f: Found)
    ensures Answer([], f) == []
  {
  }

  // ------------------------------------------------------ the declarative rule

  /** The undefined queries of the name before index `i`. */
  function Rank(qs: seq<Entry>, name: string, i: nat): nat
    requires i <= |qs|
  {
    if i == 0 then 0 else Rank(qs, name, i - 1) + (if !qs[i - 1].isDefined && qs[i - 1].name == name then 1 else 0)
  }

  /** The addresses of the symbols of the name, in traversal order. */
  function AddressesOf(fs: seq<Found>, name: string): seq<U64> {
    if fs == [] then []
    else AddressesOf(fs[..|fs| - 1], name) + (if fs[|fs| - 1].name == name then [fs[|fs| - 1].addr] else [])
  }

  /** What the rule gives query `i`: the j-th undefined query of a name gets the
    * j-th address of that name; defined entries keep what they have. */
  function Ruled(qs: seq<Entry>, fs: seq<Found>, i: nat): Entry
    requires i < |qs|
  {
    var q := qs[i];
    var j := Rank(qs, q.name, i);
    if q.isDefined || j >= |AddressesOf(fs, q.name)| then q
    else q.(isDefined := true, addr := AddressesOf(fs, q.name)[j])
  }

  lemma {:induction false} AnswerIs(qs: seq<Entry>, f: Found, k: nat)
    requires k < |qs| && Asks(qs[k], f.name) && forall j :: 0 <= j < k ==> !Asks(qs[j], f.name)
    ensures Answer(qs, f) == qs[k := qs[k].(isDefined := true, addr := f.addr)]
  {
    if k > 0 {
      AnswerIs(qs[1..], f, k - 1);
    }
  }

  lemma {:induction false} NoAnswer(qs: seq<Entry>, f: Found)
    requires forall j :: 0 <= j < |qs| ==> !Asks(qs[j], f.name)
    ensures Answer(qs, f) == qs
  {
    if qs != [] {
      NoAnswer(qs[1..], f);
    }
  }

  lemma {:induction false} RankGrows(qs: seq<Entry>, name: string, i: nat, j: nat)
    requires i <= j <= |qs|
    ensures Rank(qs, name, i) <= Rank(qs, name, j)
    ensures i < j && Asks(qs[i], name) ==> Rank(qs, name, i) < Rank(qs, name, j)
    decreases j
  {
    if i < j {
      RankGrows(qs, name, i, j - 1);
    }
  }

  /** Some query has the rank, unless all ranks are smaller. */
  lemma {:induction false} RankTaken(qs: seq<Entry>, name: string, c: nat, n: nat) returns (k: nat)
    requires n <= |qs|
    ensures c < Rank(qs, name, n) ==> k < n && Asks(qs[k], name) && Rank(qs, name, k) == c
  {
    if n == 0 {
      k := 0;
    } else if Asks(qs[n - 1], name) && Rank(qs, name, n - 1) == c {
      k := n - 1;
    } else {
      k := RankTaken(qs, name, c, n - 1);
    }
  }

  lemma NextAddresses(fs: seq<Found>, f: Found, name: string)
    ensures AddressesOf(fs + [f], name) == AddressesOf(fs, name) + (if f.name == name then [f.addr] else [])
  {
    assert (fs + [f])[..|fs|] == fs;
  }

  /** How the rule changes for one query with one more symbol. */
  lemma RuleNext(qs: seq<Entry>, fs: seq<Found>, f: Found, i: nat)
    requires i < |qs|
    ensures var c := |AddressesOf(fs, f.name)|;
            && (Asks(Ruled(qs, fs, i), f.name) <==> Asks(qs[i], f.name) && c <= Rank(qs, f.name, i))
            && Ruled(qs, fs + [f], i) == if Asks(qs[i], f.name) && Rank(qs, f.name, i) == c then qs[i].(isDefined := true, addr := f.addr) else Ruled(qs, fs, i)
  {
    NextAddresses(fs, f, qs[i].name);
  }

  /** One more symbol: exactly the query whose rank is the number of earlier
    * symbols of the name is answered. */
  lemma RuleStep(qs: seq<Entry>, fs: seq<Found>, f: Found)
    requires |AnswerAll(qs, fs)| == |qs| && forall i :: 0 <= i < |qs| ==> AnswerAll(qs, fs)[i] == Ruled(qs, fs, i)
    ensures |AnswerAll(qs, fs + [f])| == |qs| && forall i :: 0 <= i < |qs| ==> AnswerAll(qs, fs + [f])[i] == Ruled(qs, fs + [f], i)
  {
    hide Ruled, Rank, AddressesOf, Asks;
    assert (fs + [f])[..|fs|] == fs;
    var now := AnswerAll(qs, fs);
    var c := |AddressesOf(fs, f.name)|;
    forall i | 0 <= i < |qs|
      ensures Asks(now[i], f.name) <==> Asks(qs[i], f.name) && c <= Rank(qs, f.name, i)
      ensures Ruled(qs, fs + [f], i) == if Asks(qs[i], f.name) && Rank(qs, f.name, i) == c then qs[i].(isDefined := true, addr := f.addr) else now[i]
    {
      RuleNext(qs, fs, f, i);
    }
    var k := RankTaken(qs, f.name, c, |qs|);
    RanksDiffer(qs, f.name);
    if c < Rank(qs, f.name, |qs|) {
      RankedAsks(qs, now[k], fs, f, k);
      AnswerIs(now, f, k);
    } else {
      NoAnswer(now, f);
    }
  }

  lemma RankedAsks(qs: seq<Entry>, now: Entry, fs: seq<Found>, f: Found, k: nat)
    requires k < |qs| && now == Ruled(qs, fs, k) && Asks(qs[k], f.name) && Rank(qs, f.name, k) == |AddressesOf(fs, f.name)|
    ensures now == qs[k]
  {
  }

  lemma RanksDiffer(qs: seq<Entry>, name: string)
    ensures forall i, j :: 0 <= i < j <= |qs| && Asks(qs[i], name) ==> Rank(qs, name, i) < Rank(qs, name, j)
  {
    forall i, j | 0 <= i < j <= |qs|
      ensures Asks(qs[i], name) ==> Rank(qs, name, i) < Rank(qs, name, j)
    {
      RankGrows(qs, name, i, j);
    }
  }

  /** After any symbols, the queries are as the rule says. */
  lemma {:induction false} QueriesFollowRule(qs: seq<Entry>, fs: seq<Found>)
    ensures |AnswerAll(qs, fs)| == |qs|
    ensures forall i :: 0 <= i < |qs| ==> AnswerAll(qs, fs)[i] == Ruled(qs, fs, i)
  {
    if fs != [] {
      var n := |fs| - 1;
      QueriesFollowRule(qs, fs[..n]);
      RuleStep(qs, fs[..n], fs[n]);
      assert fs[..n] + [fs[n]] == fs;
    }
  }
}
