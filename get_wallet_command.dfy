/**
 * `GetWalletCommand`: one page of the wallet listing. The page size must be
 * set and positive, the page number non-negative, and the sort given.
 */
module GetWalletCommands {
  import opened Wrappers
  import opened DomainTypes

  datatype GetWalletCommand = GetWalletCommand(
    size: int,
    pageNumber: int,
    sortColumn: WalletSortColumn,
    sortType: SortType)

  /** The builder; size and page number start at 0, the sort fields unset. */
  class Builder {
    var size: int
    var pageNumber: int
    var sortColumn: Option<WalletSortColumn>
    var sortType: Option<SortType>

    /** The size is 0 (never set) or positive; the page number is never negative. */
    predicate Valid()
      reads this
    {
      size >= 0 && pageNumber >= 0
    }

    constructor()
      ensures Valid()
      ensures size == 0 && pageNumber == 0 && sortColumn == None && sortType == None
    {
      size := 0;
      pageNumber := 0;
      sortColumn := None;
      sortType := None;
    }

    /** `setSize`: a size of 0 or less throws IllegalArgumentException and changes nothing. */
    method SetSize(n: int) returns (o: Outcome)
      requires Valid()
      modifies this`size
      ensures Valid()
      ensures o == if n <= 0 then Fail(IllegalArgument) else Pass
      ensures size == if n <= 0 then old(size) else n
    {
      if n <= 0 {
        return Fail(IllegalArgument);
      }
      size := n;
      return Pass;
    }

    /** `setPageNumber`: a negative number throws IllegalArgumentException and changes nothing. */
    method SetPageNumber(n: int) returns (o: Outcome)
      requires Valid()
      modifies this`pageNumber
      ensures Valid()
      ensures o == if n < 0 then Fail(IllegalArgument) else Pass
      ensures pageNumber == if n < 0 then old(pageNumber) else n
    {
      if n < 0 {
        return Fail(IllegalArgument);
      }
      pageNumber := n;
      return Pass;
    }

    method SetSortColumn(x: Option<WalletSortColumn>) returns (o: Outcome)
      modifies this`sortColumn
      ensures o == if x.Some? then Pass else Fail(NullPointer("sortColumn"))
      ensures sortColumn == if x.Some? then x else old(sortColumn)
    {
      if x.None? {
        return Fail(NullPointer("sortColumn"));
      }
      sortColumn := x;
      return Pass;
    }

    method SetSortType(x: Option<SortType>) returns (o: Outcome)
      modifies this`sortType
      ensures o == if x.Some? then Pass else Fail(NullPointer("sortType"))
      ensures sortType == if x.Some? then x else old(sortType)
    {
      if x.None? {
        return Fail(NullPointer("sortType"));
      }
      sortType := x;
      return Pass;
    }

    /**
     * `build()`: IllegalStateException for the first failing check in the
     * order sortType, sortColumn, size > 0; every built command has a
     * positive size and a non-negative page number.
     */
    method Build() returns (r: Result<GetWalletCommand>)
      requires Valid()
      ensures r.Ok? <==> sortType.Some? && sortColumn.Some? && size > 0
      ensures sortType.None? ==> r == Err(IllegalState("sortType"))
      ensures sortType.Some? && sortColumn.None? ==> r == Err(IllegalState("sortColumn"))
      ensures sortType.Some? && sortColumn.Some? && size <= 0 ==> r == Err(IllegalState("size"))
      ensures r.Ok? ==> r.value == GetWalletCommand(size, pageNumber, sortColumn.value, sortType.value)
      ensures r.Ok? ==> r.value.size > 0 && r.value.pageNumber >= 0
    {
      if sortType.None? { return Err(IllegalState("sortType")); }
      if sortColumn.None? { return Err(IllegalState("sortColumn")); }
      if size <= 0 { return Err(IllegalState("size")); }
      return Ok(GetWalletCommand(size, pageNumber, sortColumn.value, sortType.value));
    }
  }

  /** Without a call to `setSize` the default size 0 makes `build()` fail. */
  method SizeNeverSet(column: WalletSortColumn, direction: SortType) returns (r: Result<GetWalletCommand>)
    ensures r == Err(IllegalState("size"))
  {
    var b := new Builder();
    var _ := b.SetSortColumn(Some(column));
    var _ := b.SetSortType(Some(direction));
    r := b.Build();
  }

  /** A zero size is rejected by the setter, so the command still does not build. */
  method ZeroSizeRejected(column: WalletSortColumn, direction: SortType)
    returns (rejected: Outcome, r: Result<GetWalletCommand>)
    ensures rejected == Fail(IllegalArgument)
    ensures r == Err(IllegalState("size"))
  {
    var b := new Builder();
    rejected := b.SetSize(0);
    var _ := b.SetSortColumn(Some(column));
    var _ := b.SetSortType(Some(direction));
    r := b.Build();
  }

  /** The sort type is checked before the size. */
  method SortTypeCheckedFirst() returns (r: Result<GetWalletCommand>)
    ensures r == Err(IllegalState("sortType"))
  {
    var b := new Builder();
    r := b.Build();
  }
}
