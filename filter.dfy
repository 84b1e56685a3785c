/** `filteredBoletos` (App.tsx): the list narrowed by the search box, the
    due-date bounds and the status selector. */
module Filter {

  import opened Types
  import opened Text
  import opened Sequences
  import Dates

  /** The status selector: 'TODOS' or one payment status. */
  datatype StatusFilter = Todos | Only(status: PaymentStatus)

  /** The filter inputs of the screen. An empty date bound is no bound. */
  datatype FilterState = FilterState(
    searchTerm: string,
    startDate: string,
    endDate: string,
    statusFilter: StatusFilter)

  /** The screen's initial (and cleared) filter. */
  const NoFilter := FilterState("", "", "", Todos)

  /** The lowered term is in the lowered title, category or notes (the
      subcategory is not searched). */
  predicate MatchesSearch(b: Boleto, term: string)
  {
    var t := Lower(term);
    Includes(Lower(b.titulo), t) || Includes(Lower(b.categoria), t) || Includes(Lower(b.observacoes), t)
  }

  /** An empty bound (falsy in JavaScript) accepts every bill. */
  predicate MatchesStartDate(b: Boleto, startDate: string)
  {
    startDate != "" ==> Dates.OnOrAfter(b.dataVencimento, startDate)
  }

  predicate MatchesEndDate(b: Boleto, endDate: string)
  {
    endDate != "" ==> Dates.OnOrBefore(b.dataVencimento, endDate)
  }

  predicate MatchesStatus(b: Boleto, statusFilter: StatusFilter)
  {
    statusFilter.Todos? || b.status == statusFilter.status
  }

  /** The callback given to `boletos.filter`: the four tests together. */
  predicate Matches(b: Boleto, f: FilterState)
  {
    && MatchesSearch(b, f.searchTerm)
    && MatchesStartDate(b, f.startDate)
    && MatchesEndDate(b, f.endDate)
    && MatchesStatus(b, f.statusFilter)
  }

  /** The bills the list shows: those that pass every test, in their order. */
  function Filtered(boletos: seq<Boleto>, f: FilterState): seq<Boleto>
  {
    if boletos == [] then []
    else (if Matches(boletos[0], f) then [boletos[0]] else []) + Filtered(boletos[1..], f)
  }

  /** A bill is shown exactly when it is in the list and passes the filter,
      as many times as it occurs in the list. */
  lemma {:induction false} FilteredMembership(boletos: seq<Boleto>, f: FilterState)
    ensures forall b :: b in Filtered(boletos, f) <==> b in boletos && Matches(b, f)
    ensures forall b :: multiset(Filtered(boletos, f))[b] == if Matches(b, f) then multiset(boletos)[b] else 0
  {
    if boletos != [] {
      FilteredMembership(boletos[1..], f);
      assert boletos == [boletos[0]] + boletos[1..];
    }
  }

  /** The shown list keeps the order of the full list. */
  lemma {:induction false} FilteredIsSubsequence(boletos: seq<Boleto>, f: FilterState)
    ensures IsSubsequence(Filtered(boletos, f), boletos)
  {
    if boletos != [] {
      var rest := Filtered(boletos[1..], f);
      FilteredIsSubsequence(boletos[1..], f);
      if Matches(boletos[0], f) {
        assert ([boletos[0]] + rest)[1..] == rest;
      } else {
        assert Filtered(boletos, f) == rest;
        SubsequenceOfTail(rest, boletos);
      }
    }
  }

  /** Filtering distributes over concatenation. */
  lemma {:induction false} FilteredAppend(a: seq<Boleto>, b: seq<Boleto>, f: FilterState)
    ensures Filtered(a + b, f) == Filtered(a, f) + Filtered(b, f)
  {
    if a != [] {
      assert (a + b)[1..] == a[1..] + b;
      FilteredAppend(a[1..], b, f);
    } else {
      assert a + b == b;
    }
  }

  /** Filtering twice with the same state gives the same list. */
  lemma {:induction false} FilteredIdempotent(boletos: seq<Boleto>, f: FilterState)
    ensures Filtered(Filtered(boletos, f), f) == Filtered(boletos, f)
  {
    if boletos != [] {
      var head := if Matches(boletos[0], f) then [boletos[0]] else [];
      FilteredIdempotent(boletos[1..], f);
      FilteredAppend(head, Filtered(boletos[1..], f), f);
      if head != [] {
        assert head[1..] == [];
      }
    }
  }

  /** When every bill passes, the list comes back unchanged. */
  lemma {:induction false} FilteredAllMatch(boletos: seq<Boleto>, f: FilterState)
    requires forall i :: 0 <= i < |boletos| ==> Matches(boletos[i], f)
    ensures Filtered(boletos, f) == boletos
  {
    if boletos != [] {
      FilteredAllMatch(boletos[1..], f);
      assert boletos == [boletos[0]] + boletos[1..];
    }
  }

  /** No search term, no dates and 'TODOS' show the whole list in its order. */
  lemma NoFilterShowsAll(boletos: seq<Boleto>)
    ensures Filtered(boletos, NoFilter) == boletos
  {
    forall i | 0 <= i < |boletos| ensures Matches(boletos[i], NoFilter) {
      assert Lower("") == "";
      assert Includes(Lower(boletos[i].titulo), "");
    }
    FilteredAllMatch(boletos, NoFilter);
  }

  /** The search does not care about the case of the term. */
  lemma SearchIgnoresCaseOfTerm(b: Boleto, term: string)
    ensures MatchesSearch(b, term) <==> MatchesSearch(b, Lower(term))
  {
    LowerIdempotent(term);
  }

  /** On well-formed dates, the bounds are inclusive string comparisons. */
  lemma DateBoundsAreInclusive(b: Boleto, f: FilterState)
    requires Dates.IsIsoDate(b.dataVencimento)
    requires f.startDate != "" ==> Dates.IsIsoDate(f.startDate)
    requires f.endDate != "" ==> Dates.IsIsoDate(f.endDate)
    ensures MatchesStartDate(b, f.startDate) <==> f.startDate == "" || !LexLess(b.dataVencimento, f.startDate)
    ensures MatchesEndDate(b, f.endDate) <==> f.endDate == "" || !LexLess(f.endDate, b.dataVencimento)
  {
    if f.startDate != "" {
      Dates.DateComparisonsAreStringComparisons(b.dataVencimento, f.startDate);
    }
    if f.endDate != "" {
      Dates.DateComparisonsAreStringComparisons(b.dataVencimento, f.endDate);
    }
  }
}
