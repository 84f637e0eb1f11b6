/**
 * The command-side `CredentialSearch`: a credential query with an optional
 * credential id, identifier and type list, a required sort and caller BPN,
 * and non-negative paging.
 */
module CommandCredentialSearch {
  import opened Wrappers
  import opened DomainTypes
  import opened Identifiers
  import opened CredentialIds
  import SortColumns
  import TypesToSearch

  /** The paging library's sort: a column label and a direction. */
  datatype Sort = Sort(column: string, sortType: SortType)

  /** A built search; the optional parts may be null (`None`). */
  datatype CredentialSearch = CredentialSearch(
    credentialId: Option<CredentialId>,
    identifier: Option<Identifier>,
    typesToSearch: Option<seq<TypesToSearch.TypeToSearch>>,
    sort: Sort,
    pageNumber: int,
    pageSize: int,
    callerBpn: BPN)

  /** The builder; an unset field (Java null) is `None`, the page fields start at 0. */
  class Builder {
    var id: Option<CredentialId>
    var identifier: Option<Identifier>
    var typesToSearch: Option<seq<TypesToSearch.TypeToSearch>>
    var sort: Option<Sort>
    var pageNumber: int
    var pageSize: int
    var callerBpn: Option<BPN>

    /** The page fields are never negative. */
    predicate Valid()
      reads this
    {
      pageNumber >= 0 && pageSize >= 0
    }

    constructor()
      ensures Valid()
      ensures id == None && identifier == None && typesToSearch == None && sort == None && callerBpn == None
      ensures pageNumber == 0 && pageSize == 0
    {
      id := None;
      identifier := None;
      typesToSearch := None;
      sort := None;
      pageNumber := 0;
      pageSize := 0;
      callerBpn := None;
    }

    method WithCredentialId(x: Option<CredentialId>) returns (o: Outcome)
      modifies this`id
      ensures o == if x.Some? then Pass else Fail(NullPointer("id"))
      ensures id == if x.Some? then x else old(id)
    {
      if x.None? {
        return Fail(NullPointer("id"));
      }
      id := x;
      return Pass;
    }

    method WithIdentifier(x: Option<Identifier>) returns (o: Outcome)
      modifies this`identifier
      ensures o == if x.Some? then Pass else Fail(NullPointer("identifier"))
      ensures identifier == if x.Some? then x else old(identifier)
    {
      if x.None? {
        return Fail(NullPointer("identifier"));
      }
      identifier := x;
      return Pass;
    }

    method WithTypesToSearch(x: Option<seq<TypesToSearch.TypeToSearch>>) returns (o: Outcome)
      modifies this`typesToSearch
      ensures o == if x.Some? then Pass else Fail(NullPointer("typesToSearch"))
      ensures typesToSearch == if x.Some? then x else old(typesToSearch)
    {
      if x.None? {
        return Fail(NullPointer("typesToSearch"));
      }
      typesToSearch := x;
      return Pass;
    }

    /**
     * `withSort`: both arguments must be non-null (column checked first);
     * the stored sort has the column's label and the same direction.
     */
    method WithSort(column: Option<SortColumns.SortColumn>, sortType: Option<SortType>) returns (o: Outcome)
      modifies this`sort
      ensures o == if column.None? then Fail(NullPointer("sortColumn"))
                   else if sortType.None? then Fail(NullPointer("sortType"))
                   else Pass
      ensures sort == if o.Pass? then Some(Sort(SortColumns.Value(column.value), sortType.value)) else old(sort)
    {
      if column.None? {
        return Fail(NullPointer("sortColumn"));
      }
      if sortType.None? {
        return Fail(NullPointer("sortType"));
      }
      sort := Some(Sort(SortColumns.Value(column.value), sortType.value));
      return Pass;
    }

    /** `withPageNumber`: a negative number throws IllegalArgumentException and changes nothing. */
    method WithPageNumber(n: int) returns (o: Outcome)
      requires Valid()
      modifies this`pageNumber
      ensures Valid()
      ensures o == if n < 0 then Fail(IllegalArgument) else Pass
      ensures pageNumber == if n < 0 then old(pageNumber) else n
    {
      if n < 0 {
        return Fail(IllegalArgument);
      }
      pageNumber := n;
      return Pass;
    }

    /** `withPageSize`: a negative size throws IllegalArgumentException and changes nothing. */
    method WithPageSize(n: int) returns (o: Outcome)
      requires Valid()
      modifies this`pageSize
      ensures Valid()
      ensures o == if n < 0 then Fail(IllegalArgument) else Pass
      ensures pageSize == if n < 0 then old(pageSize) else n
    {
      if n < 0 {
        return Fail(IllegalArgument);
      }
      pageSize := n;
      return Pass;
    }

    /** `withCallerBpn`: stores the argument as given; null is not rejected here. */
    method WithCallerBpn(x: Option<BPN>)
      modifies this`callerBpn
      ensures callerBpn == x
    {
      callerBpn := x;
    }

    /**
     * `build()`: IllegalStateException when the sort, then the caller BPN, is
     * unset, whatever the optional fields hold; otherwise a search copying
     * every builder field, with non-negative paging.
     */
    method Build() returns (r: Result<CredentialSearch>)
      requires Valid()
      ensures r.Ok? <==> sort.Some? && callerBpn.Some?
      ensures sort.None? ==> r == Err(IllegalState("sort"))
      ensures sort.Some? && callerBpn.None? ==> r == Err(IllegalState("callerBpn"))
      ensures r.Ok? ==> r.value == CredentialSearch(id, identifier, typesToSearch, sort.value,
                                                    pageNumber, pageSize, callerBpn.value)
      ensures r.Ok? ==> r.value.pageNumber >= 0 && r.value.pageSize >= 0
    {
      if sort.None? { return Err(IllegalState("sort")); }
      if callerBpn.None? { return Err(IllegalState("callerBpn")); }
      return Ok(CredentialSearch(id, identifier, typesToSearch, sort.value, pageNumber, pageSize, callerBpn.value));
    }
  }

  /** A null caller BPN is accepted by its setter, but the search then does not build. */
  method NullCallerBpnFailsAtBuild(column: SortColumns.SortColumn, direction: SortType)
    returns (r: Result<CredentialSearch>)
    ensures r == Err(IllegalState("callerBpn"))
  {
    var b := new Builder();
    var _ := b.WithSort(Some(column), Some(direction));
    b.WithCallerBpn(None);
    r := b.Build();
  }

  /**
   * Only the sort and the caller BPN are needed: the defaults give page 0 of
   * size 0 and no filters, and the sort column is the constant's label.
   */
  method MinimalSearch(column: SortColumns.SortColumn, direction: SortType, caller: BPN)
    returns (r: Result<CredentialSearch>)
    ensures r == Ok(CredentialSearch(None, None, None, Sort(SortColumns.Value(column), direction), 0, 0, caller))
  {
    var b := new Builder();
    var _ := b.WithSort(Some(column), Some(direction));
    b.WithCallerBpn(Some(caller));
    r := b.Build();
  }

  /** A rejected negative page number leaves the earlier one in place. */
  method NegativePageKeepsEarlierPage(column: SortColumns.SortColumn, direction: SortType, caller: BPN, page: nat)
    returns (rejected: Outcome, r: Result<CredentialSearch>)
    ensures rejected == Fail(IllegalArgument)
    ensures r.Ok? && r.value.pageNumber == page
  {
    var b := new Builder();
    var _ := b.WithPageNumber(page);
    rejected := b.WithPageNumber(-1);
    var _ := b.WithSort(Some(column), Some(direction));
    b.WithCallerBpn(Some(caller));
    r := b.Build();
  }
}
