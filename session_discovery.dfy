/**
 * `fetchMySessions`: the scan of the session ledger for the caller's
 * sessions, later ids first.
 */
module SessionDiscovery {
  import opened Wrappers
  import opened Addresses
  import opened HealthLedger
  import opened HealthClient

  /* ---------------------------------------------------------------------
   * fetchMySessions
   * ------------------------------------------------------------------- */

  /** One row of the caller's session list; `createdAt` in seconds. */
  datatype SessionItem = SessionItem(sessionId: nat, resultReady: bool, createdAt: Option<nat>)

  /**
   * `isOwner`: both the record's owner and the caller normalise, to the same
   * address. A normalisation that throws makes the check false.
   */
  predicate Owns(rec: SessionRecord, user: string) {
    Normalize(rec.user).Some? && Normalize(rec.user) == Normalize(user)
  }

  /** Session `id` can be read, exists, and belongs to `user`. */
  predicate Listed(ledger: Ledger, user: string, id: nat) {
    ReadSession(ledger, id).Some? && Owns(ReadSession(ledger, id).value, user) &&
    ReadSession(ledger, id).value.present
  }

  /** The row the scan builds for a listed id. */
  function ItemFor(ledger: Ledger, id: nat): SessionItem
    requires ReadSession(ledger, id).Some?
  {
    SessionItem(id, ReadSession(ledger, id).value.resultReady, CreationStamp(ledger, id))
  }

  /** The rows of the listed ids below `k`, in id order. */
  function ListedBelow(ledger: Ledger, user: string, k: nat): seq<SessionItem> {
    if k == 0 then []
    else ListedBelow(ledger, user, k - 1) + (if Listed(ledger, user, k - 1) then [ItemFor(ledger, k - 1)] else [])
  }

  predicate Ascending(items: seq<SessionItem>) {
    forall i, j :: 0 <= i < j < |items| ==> items[i].sessionId < items[j].sessionId
  }

  predicate Descending(items: seq<SessionItem>) {
    forall i, j :: 0 <= i < j < |items| ==> items[i].sessionId > items[j].sessionId
  }

  /**
   * The rows below `k` are in ascending id order, and a row is among them
   * exactly when it is the row of a listed id below `k`.
   */
  lemma {:induction false} ListedBelowSpec(ledger: Ledger, user: string, k: nat)
    ensures Ascending(ListedBelow(ledger, user, k))
    ensures forall it :: it in ListedBelow(ledger, user, k) <==>
      it.sessionId < k && Listed(ledger, user, it.sessionId) && it == ItemFor(ledger, it.sessionId)
  {
    if k > 0 {
      ListedBelowSpec(ledger, user, k - 1);
      var prev := ListedBelow(ledger, user, k - 1);
      assert forall it | it in prev :: it.sessionId < k - 1;
      if Listed(ledger, user, k - 1) {
        var item := ItemFor(ledger, k - 1);
        assert ListedBelow(ledger, user, k) == prev + [item];
        forall i, j | 0 <= i < j < |prev + [item]|
          ensures (prev + [item])[i].sessionId < (prev + [item])[j].sessionId
        {
          if j == |prev| { assert (prev + [item])[i] == prev[i] && prev[i] in prev; }
        }
      } else {
        assert ListedBelow(ledger, user, k) == prev;
      }
    }
  }

  /** The sequence in reverse order. */
  function Reverse(items: seq<SessionItem>): (r: seq<SessionItem>)
    ensures |r| == |items|
    ensures forall i :: 0 <= i < |items| ==> r[i] == items[|items| - 1 - i]
  {
    if items == [] then [] else Reverse(items[1..]) + [items[0]]
  }

  /**
   * `items.sort((a, b) => b.sessionId - a.sessionId)`: a stable insertion
   * sort, later ids first.
   */
  function SortByIdDescending(items: seq<SessionItem>): seq<SessionItem> {
    if items == [] then [] else InsertById(items[0], SortByIdDescending(items[1..]))
  }

  /** Inserts `x` before the first row whose id is not greater than its own. */
  function InsertById(x: SessionItem, sorted: seq<SessionItem>): seq<SessionItem> {
    if sorted == [] || x.sessionId >= sorted[0].sessionId then [x] + sorted
    else [sorted[0]] + InsertById(x, sorted[1..])
  }

  /** A row whose id is below every id of the list goes to its end. */
  lemma {:induction false} InsertSmallest(x: SessionItem, sorted: seq<SessionItem>)
    requires forall it | it in sorted :: x.sessionId < it.sessionId
    ensures InsertById(x, sorted) == sorted + [x]
  {
    if sorted != [] {
      assert sorted[0] in sorted;
      assert forall it | it in sorted[1..] :: it in sorted;
      InsertSmallest(x, sorted[1..]);
      assert [sorted[0]] + (sorted[1..] + [x]) == sorted + [x];
    }
  }

  /** Sorting rows pushed in ascending id order reverses them. */
  lemma {:induction false} SortOfAscending(items: seq<SessionItem>)
    requires Ascending(items)
    ensures SortByIdDescending(items) == Reverse(items)
  {
    if items != [] {
      var tail := items[1..];
      assert Ascending(tail) by {
        forall i, j | 0 <= i < j < |tail| ensures tail[i].sessionId < tail[j].sessionId {
          assert tail[i] == items[i + 1] && tail[j] == items[j + 1];
        }
      }
      SortOfAscending(tail);
      forall it | it in Reverse(tail) ensures items[0].sessionId < it.sessionId {
        var i :| 0 <= i < |Reverse(tail)| && Reverse(tail)[i] == it;
        assert it == items[|tail| - i];
      }
      InsertSmallest(items[0], Reverse(tail));
    }
  }

  /** The reversal of an ascending list is descending, with the same rows. */
  lemma ReverseOfAscending(items: seq<SessionItem>)
    requires Ascending(items)
    ensures Descending(Reverse(items))
    ensures forall it :: it in Reverse(items) <==> it in items
  {
    var r := Reverse(items);
    forall it | it in items ensures it in r {
      var i :| 0 <= i < |items| && items[i] == it;
      assert r[|items| - 1 - i] == it;
    }
  }

  /**
   * `fetchMySessions`: read `nextSessionId` (a read that throws, as
   * `failures` says, rejects the whole call), scan every id below it, skip
   * the reads that throw, keep the existing sessions the caller owns, and
   * return them later ids first.
   */
  method FetchMySessions(ctx: Context, ledger: Ledger, failures: map<Step, string>)
    returns (r: Result<seq<SessionItem>, Error>)
    ensures !ctx.hasSigner || !ctx.hasReadonlyProvider || HealthAddress(ctx).None? ==> r == Success([])
    ensures ctx.hasSigner && ctx.hasReadonlyProvider && HealthAddress(ctx).Some? && NextIdStep in failures ==>
      r == Failure(Rejected(NextIdStep, failures[NextIdStep]))
    ensures r.Success? ==> Descending(r.value)
    ensures ctx.hasSigner && ctx.hasReadonlyProvider && HealthAddress(ctx).Some? && NextIdStep !in failures ==>
      r.Success? &&
      forall it :: it in r.value <==>
        it.sessionId < ledger.nextSessionId && Listed(ledger, ctx.user, it.sessionId) &&
        it == ItemFor(ledger, it.sessionId)
  {
    if !ctx.hasSigner || !ctx.hasReadonlyProvider {
      return Success([]);
    }
    if HealthAddress(ctx).None? {
      return Success([]);
    }
    if NextIdStep in failures {
      return Failure(Rejected(NextIdStep, failures[NextIdStep]));
    }
    var pushed: seq<SessionItem> := [];
    var i: nat := 0;
    while i < ledger.nextSessionId
      invariant i <= ledger.nextSessionId
      invariant pushed == ListedBelow(ledger, ctx.user, i)
    {
      var s := ReadSession(ledger, i);
      if s.Some? {
        var isOwner := Owns(s.value, ctx.user);
        if isOwner && s.value.present {
          pushed := pushed + [SessionItem(i, s.value.resultReady, CreationStamp(ledger, i))];
        }
      }
      i := i + 1;
    }
    ListedBelowSpec(ledger, ctx.user, i);
    SortOfAscending(pushed);
    ReverseOfAscending(pushed);
    r := Success(SortByIdDescending(pushed));
  }
}
