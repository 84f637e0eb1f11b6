/**
 * The domain `CredentialSearch`: like the command-side search, but the sort
 * column and direction are separate required fields and the caller is an
 * `Identifier`.
 */
module DomainCredentialSearch {
  import opened Wrappers
  import opened DomainTypes
  import opened Identifiers
  import opened CredentialIds
  import SortColumns
  import TypesToSearch

  /** A built search; the optional parts may be null (`None`). */
  datatype CredentialSearch = CredentialSearch(
    credentialId: Option<CredentialId>,
    identifier: Option<Identifier>,
    typesToSearch: Option<seq<TypesToSearch.TypeToSearch>>,
    sortColumn: SortColumns.SortColumn,
    sortType: SortType,
    pageNumber: int,
    pageSize: int,
    callerBpn: Identifier)

  /** The builder; an unset field (Java null) is `None`, the page fields start at 0. */
  class Builder {
    var id: Option<CredentialId>
    var identifier: Option<Identifier>
    var typesToSearch: Option<seq<TypesToSearch.TypeToSearch>>
    var sortColumn: Option<SortColumns.SortColumn>
    var sortType: Option<SortType>
    var pageNumber: int
    var pageSize: int
    var callerBpn: Option<Identifier>

    /** The page fields are never negative. */
    predicate Valid()
      reads this
    {
      pageNumber >= 0 && pageSize >= 0
    }

    constructor()
      ensures Valid()
      ensures id == None && identifier == None && typesToSearch == None
      ensures sortColumn == None && sortType == None && callerBpn == None
      ensures pageNumber == 0 && pageSize == 0
    {
      id := None;
      identifier := None;
      typesToSearch := None;
      sortColumn := None;
      sortType := None;
      pageNumber := 0;
      pageSize := 0;
      callerBpn := None;
    }

    method WithCredentialId(x: Option<CredentialId>) returns (o: Outcome)
      modifies this`id
      ensures o == if x.Some? then Pass else Fail(NullPointer("id"))
      ensures id == if x.Some? then x else old(id)
    {
      if x.None? {
        return Fail(NullPointer("id"));
      }
      id := x;
      return Pass;
    }

    method WithIdentifier(x: Option<Identifier>) returns (o: Outcome)
      modifies this`identifier
      ensures o == if x.Some? then Pass else Fail(NullPointer("identifier"))
      ensures identifier == if x.Some? then x else old(identifier)
    {
      if x.None? {
        return Fail(NullPointer("identifier"));
      }
      identifier := x;
      return Pass;
    }

    method WithTypesToSearch(x: Option<seq<TypesToSearch.TypeToSearch>>) returns (o: Outcome)
      modifies this`typesToSearch
      ensures o == if x.Some? then Pass else Fail(NullPointer("typesToSearch"))
      ensures typesToSearch == if x.Some? then x else old(typesToSearch)
    {
      if x.None? {
        return Fail(NullPointer("typesToSearch"));
      }
      typesToSearch := x;
      return Pass;
    }

    method WithSortColumn(x: Option<SortColumns.SortColumn>) returns (o: Outcome)
      modifies this`sortColumn
      ensures o == if x.Some? then Pass else Fail(NullPointer("sortColumn"))
      ensures sortColumn == if x.Some? then x else old(sortColumn)
    {
      if x.None? {
        return Fail(NullPointer("sortColumn"));
      }
      sortColumn := x;
      return Pass;
    }

    method WithSortType(x: Option<SortType>) returns (o: Outcome)
      modifies this`sortType
      ensures o == if x.Some? then Pass else Fail(NullPointer("sortType"))
      ensures sortType == if x.Some? then x else old(sortType)
    {
      if x.None? {
        return Fail(NullPointer("sortType"));
      }
      sortType := x;
      return Pass;
    }

    /** `withPageNumber`: a negative number throws IllegalArgumentException and changes nothing. */
    method WithPageNumber(n: int) returns (o: Outcome)
      requires Valid()
      modifies this`pageNumber
      ensures Valid()
      ensures o == if n < 0 then Fail(IllegalArgument) else Pass
      ensures pageNumber == if n < 0 then old(pageNumber) else n
    {
      if n < 0 {
        return Fail(IllegalArgument);
      }
      pageNumber := n;
      return Pass;
    }

    /** `withPageSize`: a negative size throws IllegalArgumentException and changes nothing. */
    method WithPageSize(n: int) returns (o: Outcome)
      requires Valid()
      modifies this`pageSize
      ensures Valid()
      ensures o == if n < 0 then Fail(IllegalArgument) else Pass
      ensures pageSize == if n < 0 then old(pageSize) else n
    {
      if n < 0 {
        return Fail(IllegalArgument);
      }
      pageSize := n;
      return Pass;
    }

    /** `withCallerBpn`: stores the argument as given; null is not rejected here. */
    method WithCallerBpn(x: Option<Identifier>)
      modifies this`callerBpn
      ensures callerBpn == x
    {
      callerBpn := x;
    }

    /**
     * `build()`: IllegalStateException when the sort column, the sort type or
     * the caller BPN (checked in that order) is unset; otherwise a search
     * copying every builder field, with non-negative paging.
     */
    method Build() returns (r: Result<CredentialSearch>)
      requires Valid()
      ensures r.Ok? <==> sortColumn.Some? && sortType.Some? && callerBpn.Some?
      ensures sortColumn.None? ==> r == Err(IllegalState("sortColumn"))
      ensures sortColumn.Some? && sortType.None? ==> r == Err(IllegalState("sortType"))
      ensures sortColumn.Some? && sortType.Some? && callerBpn.None? ==> r == Err(IllegalState("callerBpn"))
      ensures r.Ok? ==> r.value == CredentialSearch(id, identifier, typesToSearch, sortColumn.value,
                                                    sortType.value, pageNumber, pageSize, callerBpn.value)
      ensures r.Ok? ==> r.value.pageNumber >= 0 && r.value.pageSize >= 0
    {
      if sortColumn.None? { return Err(IllegalState("sortColumn")); }
      if sortType.None? { return Err(IllegalState("sortType")); }
      if callerBpn.None? { return Err(IllegalState("callerBpn")); }
      return Ok(CredentialSearch(id, identifier, typesToSearch, sortColumn.value, sortType.value,
                                 pageNumber, pageSize, callerBpn.value));
    }
  }

  /** A sort column without a direction does not build. */
  method ColumnWithoutDirection(column: SortColumns.SortColumn, caller: Identifier)
    returns (r: Result<CredentialSearch>)
    ensures r == Err(IllegalState("sortType"))
  {
    var b := new Builder();
    var _ := b.WithSortColumn(Some(column));
    b.WithCallerBpn(Some(caller));
    r := b.Build();
  }

  /** The built search copies the filters and paging it was given. */
  method FullSearch(id: CredentialId, holder: Identifier, types: seq<TypesToSearch.TypeToSearch>,
                    column: SortColumns.SortColumn, direction: SortType, page: nat, size: nat, caller: Identifier)
    returns (r: Result<CredentialSearch>)
    ensures r == Ok(CredentialSearch(Some(id), Some(holder), Some(types), column, direction, page, size, caller))
  {
    var b := new Builder();
    var _ := b.WithCredentialId(Some(id));
    var _ := b.WithIdentifier(Some(holder));
    var _ := b.WithTypesToSearch(Some(types));
    var _ := b.WithSortColumn(Some(column));
    var _ := b.WithSortType(Some(direction));
    var _ := b.WithPageNumber(page);
    var _ := b.WithPageSize(size);
    b.WithCallerBpn(Some(caller));
    r := b.Build();
  }
}
