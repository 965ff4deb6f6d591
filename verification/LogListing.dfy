/** The log listing of a run: `ORDER BY position, sequence LIMIT limit OFFSET offset` over its rows. */
module LogListing {
  import opened Runs

  /** A row of the listing with the position of its stage. */
  datatype Entry = Entry(position: nat, row: LogRow)

  function Tagged(position: nat, logs: seq<LogRow>): (r: seq<Entry>)
    ensures |r| == |logs|
    ensures forall k :: 0 <= k < |logs| ==> r[k] == Entry(position, logs[k])
  {
    seq(|logs|, k requires 0 <= k < |logs| => Entry(position, logs[k]))
  }

  /** The rows of the stages below `k`. */
  function Listing(cells: seq<Cell>, k: nat): seq<Entry>
    requires k <= |cells|
  {
    if k == 0 then [] else Listing(cells, k - 1) + Tagged(k - 1, cells[k - 1].logs)
  }

  function FullListing(run: Run): seq<Entry> {
    Listing(run.cells, |run.cells|)
  }

  predicate Before(a: Entry, b: Entry) {
    a.position < b.position || (a.position == b.position && a.row.sequence < b.row.sequence)
  }

  lemma {:induction false} ListingPositions(cells: seq<Cell>, k: nat)
    requires k <= |cells|
    ensures forall j :: 0 <= j < |Listing(cells, k)| ==> Listing(cells, k)[j].position < k
  {
    if k > 0 {
      ListingPositions(cells, k - 1);
    }
  }

  /** The listing is what ORDER BY asks for: strictly increasing in (position, sequence). */
  lemma {:induction false} ListingIsOrdered(cells: seq<Cell>, k: nat)
    requires k <= |cells|
    requires forall i :: 0 <= i < k ==> LogsOk(cells[i].logs)
    ensures forall a, b :: 0 <= a < b < |Listing(cells, k)| ==> Before(Listing(cells, k)[a], Listing(cells, k)[b])
  {
    if k > 0 {
      ListingIsOrdered(cells, k - 1);
      ListingPositions(cells, k - 1);
      assert LogsOk(cells[k - 1].logs);
    }
  }

  /** ... and it has every row of the run and no other. */
  lemma {:induction false} ListingIsComplete(cells: seq<Cell>, k: nat, x: Entry)
    requires k <= |cells|
    ensures x in Listing(cells, k) <==> x.position < k && x.row in cells[x.position].logs
  {
    if k > 0 {
      ListingIsComplete(cells, k - 1, x);
      var last := Tagged(k - 1, cells[k - 1].logs);
      if x.position == k - 1 && x.row in cells[k - 1].logs {
        var i :| 0 <= i < |cells[k - 1].logs| && cells[k - 1].logs[i] == x.row;
        assert last[i] == x;
      }
    }
  }

  lemma {:induction false} SameLogsSameListing(a: seq<Cell>, b: seq<Cell>, k: nat)
    requires k <= |a| && |a| == |b|
    requires forall i :: 0 <= i < k ==> a[i].logs == b[i].logs
    ensures Listing(a, k) == Listing(b, k)
  {
    if k > 0 {
      SameLogsSameListing(a, b, k - 1);
    }
  }

  lemma {:induction false} EmptyTail(cells: seq<Cell>, i: nat, k: nat)
    requires i <= k <= |cells|
    requires forall j :: i <= j < k ==> cells[j].logs == []
    ensures Listing(cells, k) == Listing(cells, i)
  {
    if i < k {
      EmptyTail(cells, i, k - 1);
      assert Tagged(k - 1, []) == [];
    }
  }

  /** A row appended to the last stage that has any is the last row of the listing. */
  lemma AppendExtendsListing(cells: seq<Cell>, i: nat, row: LogRow)
    requires i < |cells|
    requires forall j :: i < j < |cells| ==> cells[j].logs == []
    ensures var after := cells[i := cells[i].(logs := cells[i].logs + [row])];
            Listing(after, |after|) == Listing(cells, |cells|) + [Entry(i, row)]
  {
    var after := cells[i := cells[i].(logs := cells[i].logs + [row])];
    EmptyTail(cells, i + 1, |cells|);
    EmptyTail(after, i + 1, |after|);
    SameLogsSameListing(cells, after, i);
    assert Tagged(i, after[i].logs) == Tagged(i, cells[i].logs) + [Entry(i, row)];
  }

  // ---- Paging ----

  /** LIMIT limit OFFSET offset */
  function Page(listing: seq<Entry>, limit: nat, offset: nat): (page: seq<Entry>)
    ensures |page| == if |listing| <= offset then 0
                      else if |listing| - offset < limit then |listing| - offset else limit
    ensures forall k :: 0 <= k < |page| ==> page[k] == listing[offset + k]
  {
    if offset >= |listing| then []
    else if offset + limit >= |listing| then listing[offset..]
    else listing[offset..offset + limit]
  }

  /** A reader asks for one page after another, each from where the last one ended; `listings[j]` is the
      listing at the moment of request `j`. What it has read after all of them. */
  function ReadAll(listings: seq<seq<Entry>>, limit: nat): seq<Entry> {
    if listings == [] then []
    else
      var read := ReadAll(listings[..|listings| - 1], limit);
      read + Page(listings[|listings| - 1], limit, |read|)
  }

  /** The next page continues what was read. */
  lemma PageContinues(listing: seq<Entry>, limit: nat, read: seq<Entry>)
    requires read <= listing
    ensures var page := Page(listing, limit, |read|);
            read + page <= listing && (|page| < limit ==> read + page == listing)
  {
  }

  /** While the listing only grows at its end, paging by offset neither repeats nor misses a row: what has
      been read is a prefix of the last listing, and all of it once a page comes back short. */
  lemma {:induction false} PagingIsExact(listings: seq<seq<Entry>>, limit: nat)
    requires listings != []
    requires forall j :: 0 <= j < |listings| - 1 ==> listings[j] <= listings[j + 1]
    ensures var last := listings[|listings| - 1];
            var before := ReadAll(listings[..|listings| - 1], limit);
            && before <= ReadAll(listings, limit) <= last
            && (|Page(last, limit, |before|)| < limit ==> ReadAll(listings, limit) == last)
  {
    var n := |listings| - 1;
    var before := ReadAll(listings[..n], limit);
    if n > 0 {
      PagingIsExact(listings[..n], limit);
      assert before <= listings[n - 1] <= listings[n];
    }
    hide Page;
    PageContinues(listings[n], limit, before);
  }
}
