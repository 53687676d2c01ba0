/** What a successful pass over the symbol tables gives every symbol and every
  * query, stated without the traversal. */
module Resolution {
  import opened Tables
  import opened Symbols
  import opened Images
  import opened Readings

  lemma DoneAll<T>(items: seq<Result<T>>)
    requires Succeeds(items)
    ensures |Done(items)| == |items| && forall i :: 0 <= i < |items| ==> items[i] == Ok(Done(items)[i])
  {
    DoneIsPrefix(items);
  }

  lemma DoneConcat<T>(a: seq<Result<T>>, b: seq<Result<T>>)
    requires Succeeds(a + b)
    ensures Succeeds(a) && Succeeds(b) && Done(a + b) == Done(a) + Done(b)
  {
    forall i | 0 <= i < |a|
      ensures a[i].Ok?
    {
      assert (a + b)[i] == a[i];
    }
    forall i | 0 <= i < |b|
      ensures b[i].Ok?
    {
      assert (a + b)[|a| + i] == b[i];
    }
    DoneAll(a);
    DoneAll(b);
    DoneAll(a + b);
    forall i | 0 <= i < |a + b|
      ensures Done(a + b)[i] == (Done(a) + Done(b))[i]
    {
      assert (a + b)[i] == if i < |a| then a[i] else b[i - |a|];
    }
  }

  lemma {:induction false} StoreConcat(tabs: seq<seq<Symbol>>, a: seq<Definition>, b: seq<Definition>)
    ensures Store(tabs, a + b) == Store(Store(tabs, a), b)
  {
    if b == [] {
      assert a + b == a;
    } else {
      var n := |b| - 1;
      assert (a + b)[..|a + b| - 1] == a + b[..n];
      StoreConcat(tabs, a, b[..n]);
    }
  }

  /** The first `k` symbols of table `i` have their values; nothing else changed. */
  ghost predicate Valued(img: Image, defs: seq<Entry>, i: nat, strings: nat, tabs: seq<seq<Symbol>>, tabs': seq<seq<Symbol>>, k: nat)
    requires WellFormed(img) && i < |img.headers| && strings < |img.headers| && k <= |img.symtabs[i]|
  {
    && |tabs'| == |tabs| == |img.symtabs| && |tabs'[i]| == |tabs[i]| == |img.symtabs[i]|
    && (forall j :: 0 <= j < |tabs| && j != i ==> tabs'[j] == tabs[j])
    && (forall l :: k <= l < |tabs[i]| ==> tabs'[i][l] == tabs[i][l])
    && (forall l :: 0 <= l < k ==>
          var it := SymbolItem(img, defs, strings, i, l, img.symtabs[i][l]); it.Ok? && tabs'[i][l] == tabs[i][l].(value := it.value.value))
  }

  lemma NextIsValued(img: Image, defs: seq<Entry>, i: nat, strings: nat, tabs: seq<seq<Symbol>>, tabs1: seq<seq<Symbol>>, k: nat, d: Definition)
    requires WellFormed(img) && i < |img.headers| && strings < |img.headers| && k < |img.symtabs[i]|
    requires Valued(img, defs, i, strings, tabs, tabs1, k) && SymbolItem(img, defs, strings, i, k, img.symtabs[i][k]) == Ok(d)
    requires d.section == i && d.index == k
    ensures Valued(img, defs, i, strings, tabs, StoreOne(tabs1, d), k + 1)
  {
    hide SymbolItem, Entries;
  }

  lemma {:induction false} TableIsValued(img: Image, defs: seq<Entry>, i: nat, strings: nat, tabs: seq<seq<Symbol>>, k: nat)
    requires WellFormed(img) && i < |img.headers| && strings < |img.headers| && k <= |img.symtabs[i]|
    requires Succeeds(TableItems(img, defs, i, strings)[..k]) && |tabs| == |img.symtabs| && |tabs[i]| == |img.symtabs[i]|
    ensures Valued(img, defs, i, strings, tabs, Store(tabs, Done(TableItems(img, defs, i, strings)[..k])), k)
    decreases k
  {
    hide SymbolItem, Entries;
    var items := TableItems(img, defs, i, strings);
    if k > 0 {
      assert items[..k] == items[..k - 1] + [items[k - 1]];
      DoneConcat(items[..k - 1], [items[k - 1]]);
      assert [items[k - 1]][0].Ok?;
      hide Valued, StoreOne;
      TableIsValued(img, defs, i, strings, tabs, k - 1);
      var d := items[k - 1].value;
      NextDefinition(tabs, [], Done(items[..k - 1]), d);
      assert Done([items[k - 1]]) == [d];
      ItemPlace(img, defs, strings, i, k - 1, img.symtabs[i][k - 1]);
      NextIsValued(img, defs, i, strings, tabs, Store(tabs, Done(items[..k - 1])), k - 1, d);
    }
  }

  lemma ItemPlace(img: Image, defs: seq<Entry>, strings: nat, i: nat, k: nat, sym: Symbol)
    requires strings < |img.headers|
    ensures var it := SymbolItem(img, defs, strings, i, k, sym); it.Ok? ==> it.value.section == i && it.value.index == k
  {
  }

  /** The value the rule gives a symbol of table `i`: the section's address added
    * for internal symbols, the first definition of its name for undefined ones. */
  ghost predicate Resolved(img: Image, defs: seq<Entry>, i: nat, sym: Symbol, sym': Symbol)
    requires i < |img.headers|
  {
    && StringsOf(img, i).Ok?
    && NameOf(img, StringsOf(img, i).value, sym).Ok?
    && var v := ValueOf(img, defs, NameOf(img, StringsOf(img, i).value, sym).value, sym);
       v.Ok? && sym' == sym.(value := v.value)
  }

  ghost predicate ResolvedUpTo(img: Image, defs: seq<Entry>, tabs: seq<seq<Symbol>>, n: nat)
    requires WellFormed(img) && n <= |img.headers|
  {
    && |tabs| == |img.symtabs|
    && (forall i :: 0 <= i < n ==> |tabs[i]| == |img.symtabs[i]| && TableResolved(img, defs, i, tabs[i]))
    && (forall i :: n <= i < |img.symtabs| ==> tabs[i] == img.symtabs[i])
  }

  ghost predicate TableResolved(img: Image, defs: seq<Entry>, i: nat, tab: seq<Symbol>)
    requires i < |img.headers| == |img.symtabs| && |tab| == |img.symtabs[i]|
  {
    if img.headers[i].kind == SYMTAB then forall k :: 0 <= k < |tab| ==> Resolved(img, defs, i, img.symtabs[i][k], tab[k])
    else tab == img.symtabs[i]
  }

  lemma SetupSucceeds(img: Image, defs: seq<Entry>, i: nat)
    requires WellFormed(img) && i < |img.headers| && img.headers[i].kind == SYMTAB
    ensures StringsOf(img, i).Err? ==> !Succeeds(SymbolItems(img, defs, i))
  {
    hide StringsOf;
    if StringsOf(img, i).Err? {
      assert SymbolItems(img, defs, i)[0].Err?;
    }
  }

  lemma SectionIsResolved(img: Image, defs: seq<Entry>, tabs: seq<seq<Symbol>>, i: nat)
    requires WellFormed(img) && i < |img.headers| && Succeeds(SymbolItems(img, defs, i)) && |tabs| == |img.symtabs| && tabs[i] == img.symtabs[i]
    ensures var tabs' := Store(tabs, Done(SymbolItems(img, defs, i)));
            && |tabs'| == |tabs| && |tabs'[i]| == |tabs[i]| && TableResolved(img, defs, i, tabs'[i])
            && forall j :: 0 <= j < |tabs| && j != i ==> tabs'[j] == tabs[j]
  {
    hide Entries;
    if img.headers[i].kind == SYMTAB {
      SetupSucceeds(img, defs, i);
      var strings := StringsOf(img, i).value;
      var items := TableItems(img, defs, i, strings);
      assert items[..|items|] == items;
      TableIsValued(img, defs, i, strings, tabs, |items|);
    }
  }

  lemma {:induction false} SectionsAreResolved(img: Image, defs: seq<Entry>, n: nat)
    requires WellFormed(img) && n <= |img.headers| && Succeeds(AllSymbolItems(img, defs, n))
    ensures ResolvedUpTo(img, defs, Store(img.symtabs, Done(AllSymbolItems(img, defs, n))), n)
    decreases n
  {
    hide TableResolved, Done, Store, SymbolItems, Succeeds;
    if n == 0 {
      NothingStored(img);
    } else {
      DoneConcat(AllSymbolItems(img, defs, n - 1), SymbolItems(img, defs, n - 1));
      SectionsAreResolved(img, defs, n - 1);
      var tabs := Store(img.symtabs, Done(AllSymbolItems(img, defs, n - 1)));
      SectionIsResolved(img, defs, tabs, n - 1);
      StoreConcat(img.symtabs, Done(AllSymbolItems(img, defs, n - 1)), Done(SymbolItems(img, defs, n - 1)));
    }
  }

  lemma NothingStored(img: Image)
    ensures Store(img.symtabs, Done([])) == img.symtabs
  {
  }

  /** After a successful pass each symbol has the value of the rule, and the
    * j-th undefined query of a name the j-th non-null address of that name, in
    * the order of the sections and of their entries; defined nodes are as they were. */
  lemma PassFollowsRule(img: Image, defs: seq<Entry>, qs: seq<Entry>, i: nat, k: nat, q: nat)
    requires WellFormed(img) && Succeeds(AllSymbolItems(img, defs, |img.headers|))
    requires i < |img.headers| && img.headers[i].kind == SYMTAB && k < |img.symtabs[i]| && q < |qs|
    ensures var ds := Done(AllSymbolItems(img, defs, |img.headers|));
            var tabs := Store(img.symtabs, ds);
            && |tabs| == |img.symtabs| && |tabs[i]| == |img.symtabs[i]| && Resolved(img, defs, i, img.symtabs[i][k], tabs[i][k])
            && |AnswerAll(qs, FoundIn(ds))| == |qs| && AnswerAll(qs, FoundIn(ds))[q] == Ruled(qs, FoundIn(ds), q)
            && (qs[q].isDefined ==> AnswerAll(qs, FoundIn(ds))[q] == qs[q])
  {
    hide Resolved, Done, Store, FoundIn, AllSymbolItems, AnswerAll;
    SectionsAreResolved(img, defs, |img.headers|);
    QueriesFollowRule(qs, FoundIn(Done(AllSymbolItems(img, defs, |img.headers|))));
  }

  // ------------------------------------------- in the fields of the image

  /** The index of the string table a symbol table names. */
  function Link(img: Image, i: nat): nat
    requires i < |img.headers|
  {
    img.headers[i].link % 0x1_0000
  }

  /** The string a symbol is named by. */
  function NameIn(img: Image, st: nat, sym: Symbol): string
    requires st < |img.headers|
  {
    img.text(st, sym.name * img.headers[st].entsize)
  }

  predicate SymbolUsable(img: Image, st: nat, sym: Symbol)
    requires st < |img.headers|
  {
    && sym.name * img.headers[st].entsize < img.headers[st].size
    && (0 < sym.shndx < 0xff00 ==> sym.shndx < |img.headers| && img.headers[sym.shndx].kind == 1)
  }

  predicate TableUsable(img: Image, i: nat)
    requires i < |img.headers| == |img.symtabs|
  {
    && img.headers[i].entsize > 0 && Link(img, i) < |img.headers|
    && img.headers[Link(img, i)].kind == 3 && img.headers[Link(img, i)].entsize > 0
    && forall k :: 0 <= k < |img.symtabs[i]| ==> SymbolUsable(img, Link(img, i), img.symtabs[i][k])
  }

  lemma SectionSucceedsIff(img: Image, defs: seq<Entry>, i: nat)
    requires WellFormed(img) && i < |img.headers|
    ensures Succeeds(SymbolItems(img, defs, i)) <==> (img.headers[i].kind == 2 ==> TableUsable(img, i))
  {
    hide Entries, SymbolItem, StringsOf;
    if img.headers[i].kind == 2 {
      StringsIs(img, i, Link(img, i));
      SetupSucceeds(img, defs, i);
      if StringsOf(img, i).Ok? {
        var st := StringsOf(img, i).value;
        StringsIs(img, i, st);
        var items := TableItems(img, defs, i, st);
        forall k | 0 <= k < |items|
          ensures items[k].Ok? <==> SymbolUsable(img, st, img.symtabs[i][k])
        {
          SymbolItemIs(img, defs, st, i, k, img.symtabs[i][k]);
        }
        if forall k :: 0 <= k < |img.symtabs[i]| ==> SymbolUsable(img, st, img.symtabs[i][k]) {
          assert forall k :: 0 <= k < |items| ==> items[k].Ok?;
        } else {
          var k :| 0 <= k < |img.symtabs[i]| && !SymbolUsable(img, st, img.symtabs[i][k]);
          assert !items[k].Ok?;
        }
      }
    }
  }

  /** The pass over the symbol tables succeeds if and only if every symbol table
    * names a string table, every name lies in it, and every symbol of a section
    * names a section of program data. */
  lemma {:induction false} PassSucceedsIff(img: Image, defs: seq<Entry>, n: nat)
    requires WellFormed(img) && n <= |img.headers|
    ensures Succeeds(AllSymbolItems(img, defs, n)) <==> forall i :: 0 <= i < n && img.headers[i].kind == 2 ==> TableUsable(img, i)
    decreases n
  {
    hide Entries, SymbolItems, TableUsable, Succeeds;
    if n == 0 {
      NothingFails<Definition>();
    } else {
      PassSucceedsIff(img, defs, n - 1);
      SectionSucceedsIff(img, defs, n - 1);
      SucceedsConcat(AllSymbolItems(img, defs, n - 1), SymbolItems(img, defs, n - 1));
    }
  }

  lemma NothingFails<T>()
    ensures Succeeds<T>([])
  {
  }

  lemma SucceedsConcat<T>(a: seq<Result<T>>, b: seq<Result<T>>)
    ensures Succeeds(a + b) <==> Succeeds(a) && Succeeds(b)
  {
    if Succeeds(a + b) {
      DoneConcat(a, b);
    }
  }

  /** What a successful pass gives each symbol: an undefined symbol the address of
    * the first definition of its name, or null; a symbol of a section that
    * section's address added to its value; any other null. */
  lemma SymbolValues(img: Image, defs: seq<Entry>, i: nat, k: nat)
    requires WellFormed(img) && Succeeds(AllSymbolItems(img, defs, |img.headers|))
    requires i < |img.headers| && img.headers[i].kind == 2 && k < |img.symtabs[i]|
    ensures var tabs, sym, st := Store(img.symtabs, Done(AllSymbolItems(img, defs, |img.headers|))), img.symtabs[i][k], img.headers[i].link % 0x1_0000;
            && |tabs| == |img.symtabs| && |tabs[i]| == |img.symtabs[i]| && st < |img.headers| && img.headers[st].kind == 3
            && var value := tabs[i][k].value;
            && tabs[i][k] == sym.(value := value)
            && (forall j: nat :: sym.shndx == 0 && FirstDefining(defs, img.text(st, sym.name * img.headers[st].entsize), j) ==> value == defs[j].addr)
            && ((sym.shndx == 0 && forall j :: 0 <= j < |defs| && defs[j].isDefined ==> defs[j].name != img.text(st, sym.name * img.headers[st].entsize))
                ==> value == 0)
            && (0 < sym.shndx < 0xff00 ==>
                  && sym.shndx < |img.headers| && img.headers[sym.shndx].kind == 1
                  && value == (sym.value + img.headers[sym.shndx].addr) % 0x1_0000_0000_0000_0000)
            && (sym.shndx >= 0xff00 ==> value == 0)
  {
    hide Store, Done, AllSymbolItems, StringsOf, NameOf, ValueOf, AddressOf, Entries;
    PassFollowsRule(img, defs, [Symbols.Entry("", false, 0)], i, k, 0);
    var st, sym := StringsOf(img, i).value, img.symtabs[i][k];
    StringsIs(img, i, st);
    NameIs(img, st, sym);
    ValueIs(img, defs, NameIn(img, st, sym), sym);
    AddressIs(img, sym);
  }

  /** The symbols of the first `k` of a table that have an address, by name. */
  function Answering(img: Image, i: nat, tab: seq<Symbol>, k: nat): seq<Found>
    requires i < |img.headers| && k <= |tab|
  {
    if k == 0 || Link(img, i) >= |img.headers| then []
    else Answering(img, i, tab, k - 1)
         + (if tab[k - 1].value == 0 then [] else [Found(NameIn(img, Link(img, i), tab[k - 1]), tab[k - 1].value)])
  }

  /** The symbols with an address, in the order of sections and entries. */
  function AllAnswering(img: Image, tabs: seq<seq<Symbol>>, n: nat): seq<Found>
    requires n <= |img.headers| == |tabs|
  {
    if n == 0 then []
    else AllAnswering(img, tabs, n - 1) + (if img.headers[n - 1].kind == 2 then Answering(img, n - 1, tabs[n - 1], |tabs[n - 1]|) else [])
  }

  lemma {:induction false} FoundConcat(a: seq<Definition>, b: seq<Definition>)
    ensures FoundIn(a + b) == FoundIn(a) + FoundIn(b)
  {
    if b == [] {
      assert a + b == a;
    } else {
      var n := |b| - 1;
      assert (a + b)[..|a + b| - 1] == a + b[..n];
      FoundConcat(a, b[..n]);
    }
  }

  lemma {:induction false} TableAnswers(img: Image, defs: seq<Entry>, i: nat, tab: seq<Symbol>, k: nat)
    requires WellFormed(img) && i < |img.headers| && img.headers[i].kind == SYMTAB && StringsOf(img, i).Ok?
    requires |tab| == |img.symtabs[i]| && k <= |tab| && TableResolved(img, defs, i, tab)
    requires Succeeds(TableItems(img, defs, i, StringsOf(img, i).value)[..k])
    ensures FoundIn(Done(TableItems(img, defs, i, StringsOf(img, i).value)[..k])) == Answering(img, i, tab, k)
    decreases k
  {
    hide SymbolItem, Entries, StringsOf, NameOf, ValueOf;
    var st := StringsOf(img, i).value;
    StringsIs(img, i, st);
    var items := TableItems(img, defs, i, st);
    if k > 0 {
      assert items[..k] == items[..k - 1] + [items[k - 1]];
      DoneConcat(items[..k - 1], [items[k - 1]]);
      assert [items[k - 1]][0].Ok?;
      TableAnswers(img, defs, i, tab, k - 1);
      var d := items[k - 1].value;
      assert Done([items[k - 1]]) == [d];
      NextFound(Done(items[..k - 1]), d);
      assert Resolved(img, defs, i, img.symtabs[i][k - 1], tab[k - 1]);
      ItemOf(img, defs, st, i, k - 1, img.symtabs[i][k - 1], tab[k - 1]);
    }
  }

  lemma NextFound(ds: seq<Definition>, d: Definition)
    ensures FoundIn(ds + [d]) == FoundIn(ds) + (if d.value == 0 then [] else [Found(d.name, d.value)])
  {
    assert (ds + [d])[..|ds|] == ds;
  }

  lemma ItemOf(img: Image, defs: seq<Entry>, st: nat, i: nat, k: nat, sym: Symbol, sym': Symbol)
    requires i < |img.headers| && st < |img.headers| && StringsOf(img, i) == Ok(st) && Resolved(img, defs, i, sym, sym')
    ensures SymbolItem(img, defs, st, i, k, sym) == Ok(Definition(i, k, NameIn(img, st, sym'), sym'.value))
  {
    hide StringsOf, ValueOf;
    NameIs(img, st, sym);
  }

  /** The addresses a successful pass offers to the queries are those of its
    * symbols with an address, in the order of sections and entries. */
  lemma {:induction false} OffersAre(img: Image, defs: seq<Entry>, tabs: seq<seq<Symbol>>, n: nat)
    requires WellFormed(img) && n <= |img.headers| == |tabs| && Succeeds(AllSymbolItems(img, defs, n))
    requires forall i :: 0 <= i < n ==> |tabs[i]| == |img.symtabs[i]| && TableResolved(img, defs, i, tabs[i])
    ensures FoundIn(Done(AllSymbolItems(img, defs, n))) == AllAnswering(img, tabs, n)
    decreases n
  {
    hide TableResolved, Answering, StringsOf, Entries, FoundIn, Done, SymbolItem, Succeeds;
    if n == 0 {
      NothingOffered();
    } else {
      DoneConcat(AllSymbolItems(img, defs, n - 1), SymbolItems(img, defs, n - 1));
      OffersAre(img, defs, tabs, n - 1);
      FoundConcat(Done(AllSymbolItems(img, defs, n - 1)), Done(SymbolItems(img, defs, n - 1)));
      NothingOffered();
      if img.headers[n - 1].kind == SYMTAB {
        SetupSucceeds(img, defs, n - 1);
        var items := TableItems(img, defs, n - 1, StringsOf(img, n - 1).value);
        assert items[..|items|] == items;
        TableAnswers(img, defs, n - 1, tabs[n - 1], |items|);
      }
    }
  }

  lemma NothingOffered()
    ensures FoundIn(Done([])) == []
  {
  }

  /** What a successful pass gives each query: the j-th undefined query of a name
    * the j-th address among the symbols of that name that have one; queries
    * beyond that, and defined entries, stay as they are. */
  lemma QueriesAnswered(img: Image, defs: seq<Entry>, qs: seq<Entry>, q: nat)
    requires WellFormed(img) && Succeeds(AllSymbolItems(img, defs, |img.headers|)) && q < |qs|
    ensures var ds := Done(AllSymbolItems(img, defs, |img.headers|));
            var tabs, qs' := Store(img.symtabs, ds), AnswerAll(qs, FoundIn(ds));
            && |tabs| == |img.headers| && |qs'| == |qs|
            && var addrs, j := AddressesOf(AllAnswering(img, tabs, |img.headers|), qs[q].name), Rank(qs, qs[q].name, q);
               qs'[q] == if qs[q].isDefined || j >= |addrs| then qs[q] else Symbols.Entry(qs[q].name, true, addrs[j])
  {
    hide TableResolved, Done, Store, FoundIn, AllSymbolItems, AnswerAll, AllAnswering, AddressesOf, Rank, Entries;
    SectionsAreResolved(img, defs, |img.headers|);
    var ds := Done(AllSymbolItems(img, defs, |img.headers|));
    OffersAre(img, defs, Store(img.symtabs, ds), |img.headers|);
    QueriesFollowRule(qs, FoundIn(ds));
  }
}
