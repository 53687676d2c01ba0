/** What a relocation pass writes, in the fields of the image: the patch of each
  * entry, in the order of sections and entries, and when the pass fails. */
module Relocating {
  import opened Tables
  import opened Widths
  import opened Patching
  import opened Images
  import opened Readings
  import opened Resolution

  predicate IsRelocationTable(h: Header) {
    h.kind == 9 || h.kind == 4
  }

  /** The entries of the relocation tables before section `i`. */
  function Before(img: Image, i: nat): nat
    requires i <= |img.headers| == |img.reltabs|
  {
    if i == 0 then 0 else Before(img, i - 1) + (if IsRelocationTable(img.headers[i - 1]) then |img.reltabs[i - 1]| else 0)
  }

  /** The section a relocation table patches, by its info field. */
  function Target(img: Image, i: nat): nat
    requires i < |img.headers|
  {
    img.headers[i].info % 0x1_0000
  }

  /** A relocation table names a symbol table and a section of program data. */
  predicate TargetUsable(img: Image, i: nat)
    requires i < |img.headers|
  {
    && img.headers[i].entsize > 0
    && Link(img, i) < |img.headers| && img.headers[Link(img, i)].kind == 2 && img.headers[Link(img, i)].entsize > 0
    && Target(img, i) < |img.headers| && img.headers[Target(img, i)].kind == 1
  }

  /** The error of entry `k` of a table, 0 if none. */
  function ErrorOf(img: Image, i: nat, k: nat): nat
    requires WellFormed(img) && i < |img.headers| && TargetUsable(img, i) && k < |img.reltabs[i]|
  {
    var rel := img.reltabs[i][k];
    EntryError(img.symtabs[Link(img, i)], (img.headers[Target(img, i)].addr + rel.offset) % 0x1_0000_0000_0000_0000,
               if img.headers[i].kind == 4 then rel.addend else 0, rel.info)
  }

  predicate RelocationsUsable(img: Image, i: nat)
    requires WellFormed(img) && i < |img.headers|
  {
    TargetUsable(img, i) && forall k :: 0 <= k < |img.reltabs[i]| ==> ErrorOf(img, i, k) == 0
  }

  lemma TargetUsableIff(img: Image, i: nat)
    requires i < |img.headers|
    ensures TargetUsable(img, i) <==> TargetOf(img, i) == Ok((Link(img, i), Target(img, i)))
    ensures TargetOf(img, i).Ok? ==> TargetUsable(img, i)
  {
    hide TargetOf;
    TargetIs(img, i, Link(img, i), Target(img, i));
    if TargetOf(img, i).Ok? {
      TargetIs(img, i, TargetOf(img, i).value.0, TargetOf(img, i).value.1);
    }
  }

  /** The patch of entry `k` of table `i`: at the address of the target section
    * plus the offset, 32 bits congruent to S + A - P, where S is the value of
    * the symbol the entry names in the linked table, and A counts in `rela`
    * tables only. */
  ghost predicate PatchOf(img: Image, i: nat, k: nat, patch: Patch)
    requires WellFormed(img) && i < |img.headers| && k < |img.reltabs[i]|
  {
    var rel, l, t := img.reltabs[i][k], img.headers[i].link % 0x1_0000, img.headers[i].info % 0x1_0000;
    var index := rel.info / 0x1_0000_0000;
    && l < |img.headers| && img.headers[l].kind == 2 && t < |img.headers| && img.headers[t].kind == 1
    && 0 < index < |img.symtabs[l]| && img.symtabs[l][index].value != 0
    && (rel.info % 0x1_0000_0000 == 2 || rel.info % 0x1_0000_0000 == 4)
    && patch.addr == (img.headers[t].addr + rel.offset) % 0x1_0000_0000_0000_0000
    && 0 <= patch.value < 0x1_0000_0000
    && (img.headers[i].kind == 4 ==> (img.symtabs[l][index].value + rel.addend - patch.addr - patch.value) % 0x1_0000_0000 == 0)
    && (img.headers[i].kind == 9 ==> (img.symtabs[l][index].value - patch.addr - patch.value) % 0x1_0000_0000 == 0)
  }

  lemma ItemsAre(img: Image, i: nat)
    requires WellFormed(img) && i < |img.headers| && IsRelocationTable(img.headers[i]) && TargetUsable(img, i)
    ensures |PatchItems(img, i)| == |img.reltabs[i]|
    ensures forall k :: 0 <= k < |img.reltabs[i]| ==>
              PatchItems(img, i)[k] ==
              RelocationItem(img.symtabs[Link(img, i)], img.headers[Target(img, i)].addr, img.headers[i].kind == 4, img.reltabs[i][k])
  {
    hide TargetOf, RelocationItem, Entries, TargetUsable;
    TargetUsableIff(img, i);
  }

  lemma PatchOfIs(img: Image, i: nat, k: nat, patch: Patch)
    requires WellFormed(img) && i < |img.headers| && IsRelocationTable(img.headers[i]) && TargetUsable(img, i) && k < |img.reltabs[i]|
    requires ErrorOf(img, i, k) == 0
    requires var rel, syms := img.reltabs[i][k], img.symtabs[Link(img, i)];
             && 0 < rel.info / 0x1_0000_0000 < |syms|
             && PatchIs(patch, syms[rel.info / 0x1_0000_0000].value, if img.headers[i].kind == 4 then rel.addend else 0,
                        img.headers[Target(img, i)].addr, rel.offset)
    ensures PatchOf(img, i, k, patch)
  {
    hide InRange, EntryError, Entries;
    var rel, syms := img.reltabs[i][k], img.symtabs[Link(img, i)];
    NoEntryError(syms, (img.headers[Target(img, i)].addr + rel.offset) % 0x1_0000_0000_0000_0000,
                 if img.headers[i].kind == 4 then rel.addend else 0, rel.info);
    var s := syms[rel.info / 0x1_0000_0000].value;
    WithoutAddend(s, patch.addr, patch.value);
  }

  lemma NoEntryError(syms: seq<Symbol>, p: U64, a: int, info: U64)
    requires EntryError(syms, p, a, info) == 0
    ensures 0 < info / 0x1_0000_0000 < |syms| && syms[info / 0x1_0000_0000].value != 0
    ensures info % 0x1_0000_0000 == 2 || info % 0x1_0000_0000 == 4
  {
    hide InRange;
  }

  lemma WithoutAddend(s: int, p: int, v: int)
    ensures s + 0 - p - v == s - p - v
  {
  }

  /** The result of an entry of a usable table. */
  lemma EntryResult(img: Image, i: nat, k: nat)
    requires WellFormed(img) && i < |img.headers| && IsRelocationTable(img.headers[i]) && TargetUsable(img, i) && k < |img.reltabs[i]|
    ensures |PatchItems(img, i)| == |img.reltabs[i]|
    ensures ErrorOf(img, i, k) != 0 ==> PatchItems(img, i)[k] == Err(ErrorOf(img, i, k))
    ensures ErrorOf(img, i, k) == 0 ==> PatchItems(img, i)[k].Ok? && PatchOf(img, i, k, PatchItems(img, i)[k].value)
  {
    hide PatchItems, TargetOf, RelocationItem, EntryError, Entries, PatchIs, PatchOf;
    ItemsAre(img, i);
    RelocationItemIs(img.symtabs[Link(img, i)], img.headers[Target(img, i)].addr, img.headers[i].kind == 4, img.reltabs[i][k]);
    if ErrorOf(img, i, k) == 0 {
      PatchOfIs(img, i, k, PatchItems(img, i)[k].value);
    }
  }

  /** A table that cannot be used gives one result, its error. */
  lemma SetupResult(img: Image, i: nat)
    requires WellFormed(img) && i < |img.headers| && IsRelocationTable(img.headers[i]) && !TargetUsable(img, i)
    ensures TargetOf(img, i).Err? && PatchItems(img, i) == [Err(TargetOf(img, i).error)]
  {
    hide TargetOf, Entries;
    TargetUsableIff(img, i);
  }

  // --------------------------------------------------------------- success

  lemma SectionPatchesIff(img: Image, i: nat)
    requires WellFormed(img) && i < |img.headers|
    ensures Succeeds(PatchItems(img, i)) <==> (IsRelocationTable(img.headers[i]) ==> RelocationsUsable(img, i))
    ensures Succeeds(PatchItems(img, i)) ==> |PatchItems(img, i)| == if IsRelocationTable(img.headers[i]) then |img.reltabs[i]| else 0
  {
    hide TargetOf, TablePatches, TargetUsable, ErrorOf, PatchOf, Entries;
    var items := PatchItems(img, i);
    if IsRelocationTable(img.headers[i]) {
      if TargetUsable(img, i) {
        UsableSection(img, i);
      } else {
        SetupResult(img, i);
        assert !items[0].Ok?;
      }
    }
  }

  lemma UsableSection(img: Image, i: nat)
    requires WellFormed(img) && i < |img.headers| && IsRelocationTable(img.headers[i]) && TargetUsable(img, i)
    ensures Succeeds(PatchItems(img, i)) <==> RelocationsUsable(img, i)
    ensures |PatchItems(img, i)| == |img.reltabs[i]|
  {
    hide TargetOf, PatchItems, TargetUsable, ErrorOf, PatchOf, Entries;
    var items := PatchItems(img, i);
    ItemsAre(img, i);
    forall k | 0 <= k < |img.reltabs[i]|
      ensures items[k].Ok? <==> ErrorOf(img, i, k) == 0
    {
      EntryResult(img, i, k);
    }
    if k :| 0 <= k < |img.reltabs[i]| && ErrorOf(img, i, k) != 0 {
      assert !items[k].Ok?;
    }
  }

  /** The pass reports no error if and only if every relocation table is usable
    * and none of its entries has an error. */
  lemma {:induction false} RelocationsSucceedIff(img: Image, n: nat)
    requires WellFormed(img) && n <= |img.headers|
    ensures Succeeds(AllPatchItems(img, n)) <==>
            forall i :: 0 <= i < n && IsRelocationTable(img.headers[i]) ==> RelocationsUsable(img, i)
    ensures Succeeds(AllPatchItems(img, n)) ==> |AllPatchItems(img, n)| == Before(img, n)
    decreases n
  {
    hide PatchItems, RelocationsUsable, Succeeds, IsRelocationTable, Entries;
    if n == 0 {
      NothingFails<Patch>();
    } else {
      RelocationsSucceedIff(img, n - 1);
      SectionPatchesIff(img, n - 1);
      SucceedsConcat(AllPatchItems(img, n - 1), PatchItems(img, n - 1));
    }
  }

  // -------------------------------------------------------- what is written

  /** The results up to section `i` begin those up to section `n`. */
  lemma {:induction false} EarlierSections(img: Image, i: nat, n: nat)
    requires WellFormed(img) && i <= n <= |img.headers|
    ensures AllPatchItems(img, i) <= AllPatchItems(img, n)
    decreases n
  {
    hide PatchItems, Entries;
    if i < n {
      EarlierSections(img, i, n - 1);
    }
  }

  /** If a patch of section `i` or later was written, the tables before it gave
    * one result per entry. */
  lemma {:induction false} SectionStart(img: Image, i: nat)
    requires WellFormed(img) && i <= |img.headers| && Before(img, i) < |Done(AllPatchItems(img, |img.headers|))|
    ensures |AllPatchItems(img, i)| == Before(img, i)
    decreases i
  {
    hide PatchItems, Done, TargetUsable, TargetOf, Entries;
    if i > 0 {
      SectionStart(img, i - 1);
      if IsRelocationTable(img.headers[i - 1]) {
        if TargetUsable(img, i - 1) {
          UsableSection(img, i - 1);
        } else {
          SetupResult(img, i - 1);
          FailedBefore(img, i - 1);
        }
      } else {
        OtherSection(img, i - 1);
      }
    }
  }

  lemma OtherSection(img: Image, i: nat)
    requires WellFormed(img) && i < |img.headers| && !IsRelocationTable(img.headers[i])
    ensures PatchItems(img, i) == []
  {
  }

  lemma FailedBefore(img: Image, i: nat)
    requires WellFormed(img) && i < |img.headers| && |AllPatchItems(img, i)| == Before(img, i)
    requires |PatchItems(img, i)| == 1 && PatchItems(img, i)[0].Err?
    ensures |Done(AllPatchItems(img, |img.headers|))| <= Before(img, i)
  {
    hide PatchItems, AllPatchItems, Done, Entries, Before;
    var all := AllPatchItems(img, |img.headers|);
    EarlierSections(img, i + 1, |img.headers|);
    NextSection(img, i);
    ErrorEndsDone(all, AllPatchItems(img, i), PatchItems(img, i));
  }

  lemma NextSection(img: Image, i: nat)
    requires WellFormed(img) && i < |img.headers|
    ensures AllPatchItems(img, i + 1) == AllPatchItems(img, i) + PatchItems(img, i)
  {
    hide PatchItems, Entries;
  }

  lemma ErrorEndsDone(all: seq<Result<Patch>>, before: seq<Result<Patch>>, items: seq<Result<Patch>>)
    requires before + items <= all && items != [] && items[0].Err?
    ensures |Done(all)| <= |before|
  {
    hide Done;
    DoneIsPrefix(all);
    assert all[|before|] == items[0];
  }

  /** Every patch a pass writes, whether or not it fails later: that of entry `k`
    * of relocation table `i` comes after those of the entries before it. */
  lemma WrittenPatch(img: Image, i: nat, k: nat)
    requires WellFormed(img) && i < |img.headers| && IsRelocationTable(img.headers[i]) && k < |img.reltabs[i]|
    requires Before(img, i) + k < |Done(AllPatchItems(img, |img.headers|))|
    ensures PatchOf(img, i, k, Done(AllPatchItems(img, |img.headers|))[Before(img, i) + k])
  {
    hide PatchItems, Done, TargetUsable, TargetOf, PatchOf, ErrorOf, Entries;
    var all := AllPatchItems(img, |img.headers|);
    SectionStart(img, i);
    EarlierSections(img, i + 1, |img.headers|);
    DoneIsPrefix(all);
    NextSection(img, i);
    if !TargetUsable(img, i) {
      SetupResult(img, i);
      FailedBefore(img, i);
    } else {
      EntryResult(img, i, k);
      assert all[Before(img, i) + k] == PatchItems(img, i)[k];
    }
  }

  /** A pass that reports no error writes one patch per entry. */
  lemma AllWritten(img: Image)
    requires WellFormed(img) && Failure(AllPatchItems(img, |img.headers|)) == 0 && Succeeds(AllPatchItems(img, |img.headers|))
    ensures |Done(AllPatchItems(img, |img.headers|))| == Before(img, |img.headers|)
  {
    RelocationsSucceedIff(img, |img.headers|);
    DoneAll(AllPatchItems(img, |img.headers|));
  }

  /** The error of a pass: that of the first table or entry that has one. */
  lemma FirstError(img: Image, i: nat)
    requires WellFormed(img) && i < |img.headers| && IsRelocationTable(img.headers[i]) && !RelocationsUsable(img, i)
    requires forall j :: 0 <= j < i && IsRelocationTable(img.headers[j]) ==> RelocationsUsable(img, j)
    ensures !TargetUsable(img, i) ==> TargetOf(img, i).Err? && Failure(AllPatchItems(img, |img.headers|)) == TargetOf(img, i).error
    ensures forall k :: 0 <= k < |img.reltabs[i]| && TargetUsable(img, i) && ErrorOf(img, i, k) != 0
              && (forall l :: 0 <= l < k ==> ErrorOf(img, i, l) == 0)
              ==> Failure(AllPatchItems(img, |img.headers|)) == ErrorOf(img, i, k)
  {
    hide PatchItems, TargetUsable, TargetOf, PatchOf, ErrorOf, Entries, Done, Failure;
    var before, items, all := AllPatchItems(img, i), PatchItems(img, i), AllPatchItems(img, |img.headers|);
    RelocationsSucceedIff(img, i);
    EarlierSections(img, i + 1, |img.headers|);
    NextSection(img, i);
    if !TargetUsable(img, i) {
      SetupResult(img, i);
      FirstOf(before, items, 0, all);
    } else {
      forall k | 0 <= k < |img.reltabs[i]| && ErrorOf(img, i, k) != 0 && (forall l :: 0 <= l < k ==> ErrorOf(img, i, l) == 0)
        ensures Failure(all) == ErrorOf(img, i, k)
      {
        forall l | 0 <= l <= k
          ensures |items| == |img.reltabs[i]| && (items[l].Ok? <==> ErrorOf(img, i, l) == 0)
        {
          EntryResult(img, i, l);
        }
        EntryResult(img, i, k);
        FirstOf(before, items, k, all);
      }
    }
  }

  lemma FirstOf(before: seq<Result<Patch>>, items: seq<Result<Patch>>, k: nat, all: seq<Result<Patch>>)
    requires Succeeds(before) && k < |items| && items[k].Err? && (forall l :: 0 <= l < k ==> items[l].Ok?) && before + items <= all
    ensures Failure(all) == items[k].error
  {
    hide Done, Failure;
    var fine, rest := before + items[..k], all[|before| + k + 1..];
    DoneNext(fine, items[k]);
    assert !(fine + [items[k]])[|fine|].Ok?;
    DoneStops(fine + [items[k]], rest);
    assert all == fine + [items[k]] + rest;
  }
}
