/** internal/repository/tiger.go: the tiger table, its insert and its listing. */
module TigerRepository {
  import opened Wrappers
  import opened GoErrors
  import opened Models
  import Ordering

  datatype ListTigersOpts = ListTigersOpts(limit: int, offset: int)

  /** `Limit(l).Offset(o).Order("last_seen_timestamp desc")`: every tiger, most
      recently seen first, then the window. */
  function ListQuery(rows: seq<Tiger>, opts: ListTigersOpts): seq<Tiger> {
    Ordering.Window(Ordering.SortDesc(rows, TigerLastSeen), opts.offset, opts.limit)
  }

  /** Without offset and limit the listing is every stored tiger, each once per
      row, most recently seen first. */
  lemma {:induction false} ListQueryUnpagedIsAll(rows: seq<Tiger>, opts: ListTigersOpts)
    requires opts.offset <= 0 && opts.limit <= 0
    ensures multiset(ListQuery(rows, opts)) == multiset(rows)
    ensures Ordering.SortedDesc(ListQuery(rows, opts), TigerLastSeen)
  {
    assert ListQuery(rows, opts) == Ordering.SortDesc(rows, TigerLastSeen);
  }

  /** The record as `DB.Create` leaves it after a successful insert: a zero
      `ID` is replaced by the key the database assigns, and a zero `CreatedAt`
      or `UpdatedAt` by the time of the insert; everything else is kept. */
  function Created(tiger: Tiger, assignedId: nat, now: Time): (t: Tiger)
    ensures t.id != 0 || assignedId == 0
    ensures tiger.id != 0 ==> t.id == tiger.id
    ensures t.createdAt != ZeroTime || now == ZeroTime
    ensures tiger.createdAt != ZeroTime ==> t.createdAt == tiger.createdAt
    ensures t.updatedAt != ZeroTime || now == ZeroTime
    ensures tiger.updatedAt != ZeroTime ==> t.updatedAt == tiger.updatedAt
    ensures t.(id := tiger.id, createdAt := tiger.createdAt, updatedAt := tiger.updatedAt) == tiger
  {
    tiger.(id := if tiger.id == 0 then assignedId else tiger.id,
           createdAt := if tiger.createdAt == ZeroTime then now else tiger.createdAt,
           updatedAt := if tiger.updatedAt == ZeroTime then now else tiger.updatedAt)
  }

  /** Inserting a record that already carries its key and times stores it as it
      is, so `Created` is idempotent once it has assigned a key and a time. */
  lemma CreatedIdempotent(tiger: Tiger, assignedId: nat, now: Time, assignedId2: nat, now2: Time)
    requires assignedId != 0 && now != ZeroTime
    ensures Created(Created(tiger, assignedId, now), assignedId2, now2) == Created(tiger, assignedId, now)
  {
  }

  /** The table `tigers`. */
  class TigerTable {
    var rows: seq<Tiger>

    constructor ()
      ensures rows == []
    {
      rows := [];
    }

    /** `DB.Create(tiger)`: appends the row with the key the database assigns
        (`assignedId`) and the insert's time (`now`), and hands the written-back
        record to the caller, whose struct GORM updates through the pointer; or
        returns the database's error and leaves the table as it was. */
    method SaveTiger(tiger: Tiger, assignedId: nat, now: Time, fault: Option<GoError>)
      returns (saved: Tiger, err: Option<GoError>)
      modifies this
      ensures err == fault
      ensures fault.Some? ==> saved == tiger && rows == old(rows)
      ensures fault.None? ==> saved == Created(tiger, assignedId, now) && rows == old(rows) + [saved]
    {
      if fault.Some? {
        return tiger, fault;
      }
      saved := Created(tiger, assignedId, now);
      rows := rows + [saved];
      return saved, None;
    }

    /** The listing: on a database error `(nil, err)`; otherwise stored tigers,
        most recently seen first, at most `limit` of them when a limit is set. */
    function GetTigers(opts: ListTigersOpts, fault: Option<GoError>): (r: Result<seq<Tiger>, GoError>)
      reads this
      ensures fault.Some? ==> r == Err(fault.value)
      ensures fault.None? ==> r.Ok? && Ordering.SortedDesc(r.value, TigerLastSeen)
      ensures fault.None? ==> forall t | t in r.value :: t in rows
      ensures fault.None? && opts.limit > 0 ==> |r.value| <= opts.limit
      ensures fault.None? ==> r == Ok(ListQuery(rows, opts))
    {
      if fault.Some? then
        Err(fault.value)
      else
        var sorted := Ordering.SortDesc(rows, TigerLastSeen);
        Ordering.WindowOfSorted(sorted, opts.offset, opts.limit, TigerLastSeen);
        forall t | t in ListQuery(rows, opts) ensures t in rows {
          assert t in multiset(sorted);
        }
        Ok(ListQuery(rows, opts))
    }
  }
}
