/** Tables of fixed-size entries in the image (src/loader/loader.c:19-28, 64-80,
  * 136-159, 199-222). Pointers into the image are offsets from its first byte. */
module Tables {

  datatype Result<T> = Ok(value: T) | Err(error: nat)

  // Error codes of include/loader/loader.h.
  const NON_EMPTY_NOBITS: nat := 1
  const BAD_TABLE_INDEX: nat := 2
  const BAD_SECTION_TYPE: nat := 3
  const NULL_ENTRY_SIZE: nat := 4
  const NULL_SYMBOL_INDEX: nat := 5
  const NULL_SYMBOL_ADDRESS: nat := 6
  const BAD_RELOCATION_TYPE: nat := 7
  const VALUE_OVERFLOW: nat := 8

  /** `end` is the offset of the first byte after the table. */
  datatype Table = Table(start: nat, end: nat, bsize: nat)

  /** The table of section headers, as loader_init finds it. */
  function HeaderTable(shoff: nat, shentsize: nat, shnum: nat): Table {
    Table(shoff, shoff + shentsize * shnum, shentsize)
  }

  /** __section_header_to_table. */
  function SectionTable(offset: nat, size: nat, entsize: nat): Result<Table> {
    if entsize == 0 then Err(NULL_ENTRY_SIZE) else Ok(Table(offset, offset + size, entsize))
  }

  /** __get_table_entry. */
  function GetEntry(t: Table, index: nat): Result<nat> {
    var entry := t.start + index * t.bsize;
    if entry >= t.end then Err(BAD_TABLE_INDEX) else Ok(entry)
  }

  /** Iteration ends: the stride is positive or the table empty. */
  predicate Finite(t: Table) {
    t.bsize > 0 || t.end <= t.start
  }

  /** The number of entries, the last of which may be cut off by the end. */
  function Count(t: Table): nat {
    if t.end <= t.start || t.bsize == 0 then 0 else (t.end - t.start + t.bsize - 1) / t.bsize
  }

  /** Both ways to make a table make one whose iteration ends. */
  lemma TablesAreFinite(shoff: nat, shentsize: nat, shnum: nat, offset: nat, size: nat, entsize: nat)
    ensures Finite(HeaderTable(shoff, shentsize, shnum))
    ensures SectionTable(offset, size, entsize).Ok? ==> Finite(SectionTable(offset, size, entsize).value)
  {
    if shentsize == 0 {
      assert shentsize * shnum == 0;
    }
  }

  /** ceil(size / bsize) is what separates the offsets before the end. */
  lemma CountSeparates(size: nat, b: nat, i: nat)
    requires b > 0
    ensures i * b < size <==> i < (size + b - 1) / b
  {
    var n := (size + b - 1) / b;
    assert n * b <= size + b - 1 < n * b + b;
    if i < n {
      assert (i + 1) * b <= n * b;
      assert (i + 1) * b == i * b + b;
    } else {
      assert i * b >= n * b;
    }
  }

  /** The entries the index lookup accepts are those the iteration visits. */
  lemma EntriesAreCounted(t: Table, i: nat)
    requires Finite(t)
    ensures GetEntry(t, i).Ok? <==> i < Count(t)
    ensures t.start + i * t.bsize < t.end <==> i < Count(t)
    ensures GetEntry(t, i) == if i < Count(t) then Ok(t.start + i * t.bsize) else Err(BAD_TABLE_INDEX)
  {
    if t.end > t.start {
      CountSeparates(t.end - t.start, t.bsize, i);
    } else {
      assert i * t.bsize >= 0;
    }
  }

  /** The section header table has the announced number of entries, none if the
    * entry size is null. */
  lemma HeaderCount(shoff: nat, shentsize: nat, shnum: nat)
    ensures Count(HeaderTable(shoff, shentsize, shnum)) == if shentsize == 0 then 0 else shnum
  {
    if shentsize != 0 && shnum != 0 {
      assert shentsize * shnum > 0;
      var n := Count(HeaderTable(shoff, shentsize, shnum));
      CountSeparates(shentsize * shnum, shentsize, shnum - 1);
      CountSeparates(shentsize * shnum, shentsize, shnum);
      assert (shnum - 1) * shentsize < shentsize * shnum;
    }
  }

  /** TABLE_ITERATE visits exactly the entries the index lookup accepts, in order. */
  method Iterate(t: Table) returns (visited: seq<nat>)
    requires Finite(t)
    ensures |visited| == Count(t)
    ensures forall i: nat :: i < |visited| ==> GetEntry(t, i) == Ok(visited[i])
    ensures forall i: nat :: i >= |visited| ==> GetEntry(t, i) == Err(BAD_TABLE_INDEX)
  {
    visited := [];
    var entry := t.start;
    assert 0 * t.bsize == 0;
    while entry < t.end
      invariant entry == t.start + |visited| * t.bsize && |visited| <= Count(t)
      invariant forall i: nat :: i < |visited| ==> visited[i] == t.start + i * t.bsize
      decreases t.end - entry
    {
      EntriesAreCounted(t, |visited|);
      assert (|visited| + 1) * t.bsize == |visited| * t.bsize + t.bsize;
      visited := visited + [entry];
      entry := entry + t.bsize;
    }
    EntriesAreCounted(t, |visited|);
    forall i: nat
      ensures i < |visited| ==> GetEntry(t, i) == Ok(visited[i])
      ensures i >= |visited| ==> GetEntry(t, i) == Err(BAD_TABLE_INDEX)
    {
      EntriesAreCounted(t, i);
    }
  }

  // -------------------------------------------------- up to the first failure

  /** The results of the entries before the first that fails. */
  function Done<T>(items: seq<Result<T>>): seq<T> {
    if items == [] || items[0].Err? then [] else [items[0].value] + Done(items[1..])
  }

  /** The error of the first entry that fails, 0 if none does. */
  function Failure<T>(items: seq<Result<T>>): nat {
    if items == [] then 0 else if items[0].Err? then items[0].error else Failure(items[1..])
  }

  predicate Succeeds<T>(items: seq<Result<T>>) {
    forall i :: 0 <= i < |items| ==> items[i].Ok?
  }

  /** One more entry after entries that did not fail. */
  lemma {:induction false} DoneNext<T>(items: seq<Result<T>>, it: Result<T>)
    requires Succeeds(items)
    ensures Done(items + [it]) == Done(items) + (if it.Ok? then [it.value] else [])
    ensures Failure(items + [it]) == if it.Ok? then 0 else it.error
  {
    if items == [] {
      assert [it][1..] == [];
    } else {
      DoneNext(items[1..], it);
      assert (items + [it])[1..] == items[1..] + [it];
    }
  }

  /** Entries after a failure do not count. */
  lemma {:induction false} DoneStops<T>(items: seq<Result<T>>, more: seq<Result<T>>)
    requires !Succeeds(items)
    ensures Done(items + more) == Done(items) && Failure(items + more) == Failure(items)
  {
    if items[0].Ok? {
      assert !Succeeds(items[1..]) by {
        var i :| 0 <= i < |items| && !items[i].Ok?;
        assert !items[1..][i - 1].Ok?;
      }
      DoneStops(items[1..], more);
      assert (items + more)[1..] == items[1..] + more;
    }
  }

  /** Exactly the entries before the first failure are done. */
  lemma {:induction false} DoneIsPrefix<T>(items: seq<Result<T>>)
    ensures |Done(items)| <= |items|
    ensures forall i :: 0 <= i < |Done(items)| ==> items[i] == Ok(Done(items)[i])
    ensures |Done(items)| < |items| ==> items[|Done(items)|] == Err(Failure(items))
    ensures |Done(items)| == |items| ==> Failure(items) == 0 && Succeeds(items)
    ensures Succeeds(items) ==> |Done(items)| == |items|
  {
    if items != [] && items[0].Ok? {
      DoneIsPrefix(items[1..]);
    }
  }

  lemma {:induction false} NoFailure<T>(items: seq<Result<T>>)
    requires Succeeds(items)
    ensures Failure(items) == 0
  {
    if items != [] {
      NoFailure(items[1..]);
    }
  }
}
