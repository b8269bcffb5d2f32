/** The order lifecycle manager's sequential parts: retries, deduplication and the
    position update (crates/application/src/order_lifecycle.rs). The concurrent
    order store is in module OrderStore. */
module Lifecycle {
  import opened Values
  import opened Fills
  import P = Positions

  datatype LifecycleError = OrderUpdateFailed | FillFailed | Repository | EventPublish | Timeout | DuplicateFill
  {
    predicate IsRetryable() {
      Repository? || EventPublish? || Timeout?
    }
  }

  // ------------------------------------------------------------------ retries

  datatype RetryConfig = RetryConfig(maxRetries: nat, retryDelay: nat, maxRetryDelay: nat)

  type Attempt = Result<Unit, LifecycleError>

  function MinNat(a: nat, b: nat): nat {
    if a <= b then a else b
  }

  function PowerOfTwo(k: nat): nat {
    if k == 0 then 1 else 2 * PowerOfTwo(k - 1)
  }

  /** The sleep before retry k + 1: doubled each time and capped, except that the
      first one is never capped. */
  function Backoff(c: RetryConfig, k: nat): nat {
    if k == 0 then c.retryDelay else MinNat(c.retryDelay * PowerOfTwo(k), c.maxRetryDelay)
  }

  predicate ShouldRetry(a: Attempt) {
    a.Err? && a.error.IsRetryable()
  }

  /** Runs an operation whose i-th attempt gives `outcomes(i)`. It stops at the first
      attempt that succeeds or fails for good, or at attempt max_retries + 1; it
      sleeps once between attempts; and it sends exactly one dead letter exactly
      when it fails and a queue is configured. */
  method ExecuteWithRetry(outcomes: nat -> Attempt, c: RetryConfig, hasQueue: bool)
    returns (r: Attempt, attempts: nat, sleeps: seq<nat>, deadLetters: nat)
    ensures 1 <= attempts <= c.maxRetries + 1 && r == outcomes(attempts - 1)
    ensures forall i: nat :: i < attempts - 1 ==> outcomes(i) in {Err(Repository), Err(EventPublish), Err(Timeout)}
    ensures attempts <= c.maxRetries ==> r.Ok? || r.error in {OrderUpdateFailed, FillFailed, DuplicateFill}
    ensures |sleeps| == attempts - 1 && forall k :: 0 <= k < |sleeps| ==> sleeps[k] == Backoff(c, k)
    ensures c.retryDelay <= c.maxRetryDelay ==> Total(sleeps) <= c.maxRetries * c.maxRetryDelay
    ensures Total(sleeps) <= c.retryDelay + (attempts - 1) * c.maxRetryDelay
    ensures deadLetters == if r.Err? && hasQueue then 1 else 0
  {
    var retries, delay := 0, c.retryDelay;
    sleeps := [];
    while true
      invariant 0 <= retries <= c.maxRetries && |sleeps| == retries
      invariant delay == Backoff(c, retries)
      invariant forall k :: 0 <= k < |sleeps| ==> sleeps[k] == Backoff(c, k)
      invariant forall i: nat :: i < retries ==> ShouldRetry(outcomes(i))
      decreases c.maxRetries - retries
    {
      r := outcomes(retries);
      match r {
        case Ok(_) =>
          TotalSleepBound(c, sleeps);
          return r, retries + 1, sleeps, 0;
        case Err(e) =>
          if e.IsRetryable() && retries < c.maxRetries {
            retries := retries + 1;
            sleeps := sleeps + [delay];
            BackoffDoubles(c, retries - 1);
            delay := MinNat(delay * 2, c.maxRetryDelay);
          } else {
            TotalSleepBound(c, sleeps);
            return r, retries + 1, sleeps, if hasQueue then 1 else 0;
          }
      }
    }
  }

  /** The first sleep is the configured delay, and each further one twice the one
      before, or the cap if that is less. */
  lemma BackoffDoubles(c: RetryConfig, k: nat)
    ensures Backoff(c, 0) == c.retryDelay
    ensures 2 * Backoff(c, k) <= c.maxRetryDelay ==> Backoff(c, k + 1) == 2 * Backoff(c, k)
    ensures 2 * Backoff(c, k) > c.maxRetryDelay ==> Backoff(c, k + 1) == c.maxRetryDelay
  {
    assert c.retryDelay * PowerOfTwo(k + 1) == c.retryDelay * PowerOfTwo(k) * 2;
  }

  function Total(sleeps: seq<nat>): nat {
    if sleeps == [] then 0 else Total(Front(sleeps)) + Last(sleeps)
  }

  /** `sleeps` are the first |sleeps| sleeps of a retry loop. */
  ghost predicate BacksOff(c: RetryConfig, sleeps: seq<nat>) {
    forall k :: 0 <= k < |sleeps| ==> sleeps[k] == Backoff(c, k)
  }

  lemma Monotone(a: nat, b: nat, m: nat)
    requires a <= b
    ensures a * m <= b * m
  {
  }

  lemma {:induction false} SleepPerRetry(c: RetryConfig, sleeps: seq<nat>)
    requires BacksOff(c, sleeps)
    ensures c.retryDelay <= c.maxRetryDelay ==> Total(sleeps) <= |sleeps| * c.maxRetryDelay
    ensures Total(sleeps) <= c.retryDelay + |sleeps| * c.maxRetryDelay
    decreases |sleeps|
  {
    if sleeps != [] {
      SleepPerRetry(c, Front(sleeps));
      assert |sleeps| * c.maxRetryDelay == (|sleeps| - 1) * c.maxRetryDelay + c.maxRetryDelay;
      if |sleeps| == 1 {
        assert Total(Front(sleeps)) == 0;
      } else {
        assert Last(sleeps) <= c.maxRetryDelay;
      }
    }
  }

  /** As long as the cap is not reached, n sleeps take 2^n - 1 times the first. */
  lemma {:induction false} UncappedTotal(c: RetryConfig, sleeps: seq<nat>)
    requires BacksOff(c, sleeps)
    requires forall k :: 0 <= k < |sleeps| ==> sleeps[k] < c.maxRetryDelay
    ensures Total(sleeps) + c.retryDelay == c.retryDelay * PowerOfTwo(|sleeps|)
    decreases |sleeps|
  {
    if sleeps != [] {
      UncappedTotal(c, Front(sleeps));
      var k := |sleeps| - 1;
      assert Last(sleeps) == c.retryDelay * PowerOfTwo(k);
      assert c.retryDelay * PowerOfTwo(k + 1) == c.retryDelay * PowerOfTwo(k) * 2;
    }
  }

  /** No run sleeps longer than max_retries * max_retry_delay when the first delay is
      within the cap; otherwise the first, uncapped sleep comes on top. */
  lemma TotalSleepBound(c: RetryConfig, sleeps: seq<nat>)
    requires |sleeps| <= c.maxRetries && BacksOff(c, sleeps)
    ensures c.retryDelay <= c.maxRetryDelay ==> Total(sleeps) <= c.maxRetries * c.maxRetryDelay
    ensures Total(sleeps) <= c.retryDelay + |sleeps| * c.maxRetryDelay
  {
    SleepPerRetry(c, sleeps);
    Monotone(|sleeps|, c.maxRetries, c.maxRetryDelay);
  }

  // ------------------------------------------------------------ deduplication

  const MAX_PROCESSED: nat := 10000
  const EVICTED: nat := 5000

  /** A delivery of a fill with this id; `handled` says whether its handler, retries
      included, succeeds, and `evicted` which ids the set would give up. */
  datatype Delivery<Id> = Delivery(id: Id, handled: bool, evicted: set<Id>)

  /** Which 5000 entries go depends on the hash order: any will do. */
  predicate Evictable<Id>(evicted: set<Id>, processed: set<Id>) {
    evicted <= processed && |evicted| == EVICTED
  }

  function Remember<Id>(processed: set<Id>, d: Delivery<Id>): set<Id> {
    var grown := processed + {d.id};
    if |grown| > MAX_PROCESSED then grown - d.evicted else grown
  }

  function ProcessedAfter<Id>(ds: seq<Delivery<Id>>): set<Id> {
    if ds == [] then {}
    else
      var before := ProcessedAfter(Front(ds));
      if Last(ds).handled && Last(ds).id !in before then Remember(before, Last(ds)) else before
  }

  /** The ids that were processed successfully, in order. */
  function Succeeded<Id>(ds: seq<Delivery<Id>>): seq<Id> {
    if ds == [] then []
    else if Last(ds).handled && Last(ds).id !in ProcessedAfter(Front(ds)) then Succeeded(Front(ds)) + [Last(ds).id]
    else Succeeded(Front(ds))
  }

  ghost predicate ValidEvictions<Id>(ds: seq<Delivery<Id>>) {
    forall i :: 0 <= i < |ds| ==>
      |ProcessedAfter(ds[..i]) + {ds[i].id}| > MAX_PROCESSED ==>
        Evictable(ds[i].evicted, ProcessedAfter(ds[..i]) + {ds[i].id})
  }

  function SetOf<Id>(s: seq<Id>): set<Id> {
    set x | x in s
  }

  lemma SetOfSnoc<Id>(s: seq<Id>, x: Id)
    ensures SetOf(s + [x]) == SetOf(s) + {x}
  {
  }

  /** Between fills the set holds at most 10000 ids. Until more than 10000 distinct
      ids have succeeded it is exactly the ids that have, so none succeeds twice,
      whichever entries a later eviction picks. */
  lemma {:induction false} NoIdSucceedsTwice<Id>(ds: seq<Delivery<Id>>)
    requires ValidEvictions(ds)
    ensures |ProcessedAfter(ds)| <= MAX_PROCESSED
    ensures |SetOf(Succeeded(ds))| <= MAX_PROCESSED ==>
              Distinct(Succeeded(ds)) && ProcessedAfter(ds) == SetOf(Succeeded(ds))
    decreases |ds|
  {
    if ds != [] {
      var front, d := Front(ds), Last(ds);
      assert ValidEvictions(front) by {
        forall i | 0 <= i < |front| ensures ds[..i] == front[..i] && ds[i] == front[i] {}
      }
      NoIdSucceedsTwice(front);
      var before := ProcessedAfter(front);
      assert ds[..|ds| - 1] == front;
      if d.handled && d.id !in before {
        EvictionMakesRoom(before, d);
        SetOfSnoc(Succeeded(front), d.id);
        SubsetSize(SetOf(Succeeded(front)), SetOf(Succeeded(ds)));
      }
    }
  }

  lemma SubsetSize<T>(a: set<T>, b: set<T>)
    requires a <= b
    ensures |a| <= |b|
  {
    assert b == a + (b - a);
  }

  lemma EvictionMakesRoom<Id>(processed: set<Id>, d: Delivery<Id>)
    requires |processed| <= MAX_PROCESSED
    requires |processed + {d.id}| > MAX_PROCESSED ==> Evictable(d.evicted, processed + {d.id})
    ensures |Remember(processed, d)| <= MAX_PROCESSED
    ensures |processed + {d.id}| <= MAX_PROCESSED ==> Remember(processed, d) == processed + {d.id}
  {
    assert |processed + {d.id}| <= |processed| + 1;
    if |processed + {d.id}| > MAX_PROCESSED {
      assert |(processed + {d.id}) - d.evicted| == |processed + {d.id}| - |d.evicted|;
    }
  }

  class FillProcessor<Id(==)> {
    var processed: set<Id>

    constructor ()
      ensures processed == {}
    {
      processed := {};
    }

    /** `process_fill`: `handled` is the outcome of the handler with its retries. */
    method ProcessFill(id: Id, handled: Attempt) returns (r: Attempt, ghost evicted: set<Id>)
      requires |processed| <= MAX_PROCESSED
      modifies this
      ensures id in old(processed) ==> r == Err(DuplicateFill) && processed == old(processed)
      ensures id !in old(processed) ==> r == handled
      ensures id !in old(processed) && handled.Err? ==> processed == old(processed)
      ensures id !in old(processed) && handled.Ok? ==>
                processed == Remember(old(processed), Delivery(id, true, evicted))
      ensures |old(processed) + {id}| > MAX_PROCESSED ==> Evictable(evicted, old(processed) + {id}) || r.Err?
      ensures |processed| <= MAX_PROCESSED
    {
      evicted := {};
      if id in processed {
        return Err(DuplicateFill), {};
      }
      r := handled;
      if r.Ok? {
        processed := processed + {id};
        if |processed| > MAX_PROCESSED {
          var full := processed;
          var removed := 0;
          while removed < EVICTED
            invariant 0 <= removed <= EVICTED
            invariant processed == full - evicted && evicted <= full && |evicted| == removed
            invariant |processed| == |full| - removed
          {
            var victim :| victim in processed;
            processed := processed - {victim};
            evicted := evicted + {victim};
            removed := removed + 1;
          }
        }
      }
    }
  }

  // --------------------------------------------------------- position updates

  datatype PositionChange = Opened | Increased | Flipped | Decreased

  /** `calculate_realized_pnl` and `calculate_partial_pnl`: the profit of taking
      `quantity` off the position at the fill's price. */
  function ReductionPnl(p: P.PositionData, f: Fill, quantity: Decimal): Decimal {
    if p.side == Buy then (f.price - p.avgEntryPrice) * quantity else (p.avgEntryPrice - f.price) * quantity
  }

  function ChangeKind(p: P.PositionData, f: Fill): PositionChange {
    if p.quantity == 0.0 then Opened
    else if p.side == f.side then Increased
    else if f.quantity >= p.quantity then Flipped
    else Decreased
  }

  /** What `update_position` stores, or its error. `Quantity::new(0)` is refused, so
      opening and exact closing always fail; a flip starts over with no realized
      P&L; a partial reduction books P&L and leaves the quantity. */
  function UpdatedPosition(stored: Option<P.PositionData>, f: Fill): Result<P.PositionData, LifecycleError>
    requires stored.Some? ==> stored.value.quantity >= 0.0
  {
    match stored
    case None => Err(Repository)
    case Some(p) =>
      if p.side == f.side then Ok(P.AddFill(p, f).value)
      else
        var remaining := p.quantity - f.quantity;
        if remaining < 0.0 then Ok(P.NewPosition(f.symbol, f.side, -remaining, f.price))
        else if remaining == 0.0 then Err(Repository)
        else Ok(P.AddRealizedPnl(p, ReductionPnl(p, f, f.quantity)))
  }

  function Net(stored: Option<P.PositionData>): Decimal {
    match stored
    case None => 0.0
    case Some(p) => p.side.Signed(p.quantity)
  }

  // ---------------------------------------- the account behind a stored position

  /** A position as its side and the entries and bookings behind it. */
  datatype Account = Account(side: Side, ledger: P.Ledger)

  function Quantity(a: Account): real {
    Sum(P.LotQuantity, a.ledger.lots)
  }

  /** A fill's share of what leaving every open entry at its price would earn. */
  function ShareOfHistory(a: Account, f: Fill): real
    requires Quantity(a) > 0.0
  {
    a.side.Signed(P.HistoryPnl(a.ledger.lots, f.price)) * f.quantity / Quantity(a)
  }

  /** What a fill does to the account: on its side it is a further entry; beyond the
      open quantity it opens the other side with the rest and nothing booked; below it
      books its share of the history's profit and closes no entry; and a fill of
      exactly the open quantity does nothing. */
  function AccountStep(a: Account, f: Fill): Account
    requires Quantity(a) >= 0.0
  {
    if f.side == a.side then Account(a.side, P.LedgerStep(a.ledger, a.side, P.AddFillOp(f)))
    else if f.quantity > Quantity(a) then Account(f.side, P.Opening(f.side, f.price, f.quantity - Quantity(a)))
    else if f.quantity == Quantity(a) then a
    else Account(a.side, P.LedgerStep(a.ledger, a.side, P.AddRealizedOp(ShareOfHistory(a, f))))
  }

  /** The stored figures are the account's: quantity, cost, unrealized and realized P&L, cash. */
  ghost predicate Describes(p: P.PositionData, a: Account) {
    p.side == a.side && P.Agrees(p, a.ledger)
  }

  lemma ShareIsReductionPnl(p: P.PositionData, a: Account, f: Fill)
    requires Describes(p, a) && p.quantity > 0.0
    ensures Quantity(a) == p.quantity && ShareOfHistory(a, f) == ReductionPnl(p, f, f.quantity)
  {
    P.GainIsHistoryPnl(p, a.ledger.lots, f.price);
    hide P.HistoryPnl, Sum;
    ShareOfGain(f.price - p.avgEntryPrice, p.quantity, f.quantity);
  }

  lemma ShareOfGain(d: real, whole: real, part: real)
    requires whole > 0.0
    ensures d * whole * part / whole == d * part && -(d * whole) * part / whole == -d * part
  {
    assert d * whole * part == d * part * whole;
    assert -(d * whole) * part == -d * part * whole;
  }

  /** Every fill does to the stored position what it does to the account, and it is
      refused exactly when it would close the position; symbol and price are kept, or
      are the fill's after a flip. */
  lemma UpdateMatchesAccount(p: P.PositionData, a: Account, f: Fill)
    requires Describes(p, a)
    ensures Quantity(a) == p.quantity >= 0.0
    ensures var r := UpdatedPosition(Some(p), f);
            && (r.Ok? <==> f.side == a.side || f.quantity != Quantity(a))
            && Describes(if r.Ok? then r.value else p, AccountStep(a, f))
            && (r.Ok? ==> r.value.symbol == (if r.value.side == p.side then p.symbol else f.symbol))
            && (r.Ok? ==> r.value.currentPrice == (if r.value.side == p.side then p.currentPrice else f.price))
  {
    if f.side == a.side {
      hide P.Agrees, UpdatedPosition;
      ScaleInMatches(p, a, f);
    } else if f.quantity > p.quantity {
      hide P.Agrees;
      P.OpeningAgrees(f.symbol, f.side, f.quantity - p.quantity, f.price);
      assert Quantity(a) == p.quantity by { SameQuantity(p, a); }
      hide P.NewPosition, P.Opening;
    } else if f.quantity < p.quantity {
      hide P.HistoryPnl, Sum, ReductionPnl, ShareOfHistory;
      ShareIsReductionPnl(p, a, f);
    }
  }

  lemma SameQuantity(p: P.PositionData, a: Account)
    requires Describes(p, a)
    ensures Quantity(a) == p.quantity >= 0.0
  {
  }

  lemma ScaleInMatches(p: P.PositionData, a: Account, f: Fill)
    requires Describes(p, a) && f.side == a.side
    ensures var r := UpdatedPosition(Some(p), f);
            && r.Ok? && Describes(r.value, AccountStep(a, f))
            && r.value.symbol == p.symbol && r.value.side == p.side && r.value.currentPrice == p.currentPrice
            && Quantity(a) == p.quantity >= 0.0
  {
    P.AddFillAgrees(p, a.ledger, f);
    SameQuantity(p, a);
    hide P.Agrees, P.LedgerStep, Blend;
  }

  /** The reported change, read off the signed net position before the fill and the
      signed fill: nothing was held; away from zero; to zero or past it; towards it. */
  lemma ChangeKindIff(p: P.PositionData, f: Fill)
    requires p.quantity >= 0.0
    ensures var before, moved := Net(Some(p)), f.side.Signed(f.quantity);
            && (ChangeKind(p, f) == Opened <==> before == 0.0)
            && (ChangeKind(p, f) == Increased <==> Abs(before) < Abs(before + moved) && before != 0.0 && (before > 0.0 <==> moved > 0.0))
            && (ChangeKind(p, f) == Flipped <==> (before > 0.0 >= before + moved) || (before < 0.0 <= before + moved))
            && (ChangeKind(p, f) == Decreased <==> 0.0 < before + moved < before || before < before + moved < 0.0)
  {
  }

  /** `update_position` moves the signed net position by the signed fill quantity
      exactly when it scales in or flips; opening, closing exactly and reducing do not. */
  lemma NettingIff(stored: Option<P.PositionData>, f: Fill)
    requires stored.Some? ==> stored.value.quantity >= 0.0
    ensures var r := UpdatedPosition(stored, f);
            (r.Ok? && Net(Some(r.value)) == Net(stored) + f.side.Signed(f.quantity))
            <==> stored.Some? && (stored.value.side == f.side || f.quantity > stored.value.quantity)
    ensures UpdatedPosition(stored, f).Err?
            <==> stored.None? || (stored.value.side != f.side && f.quantity == stored.value.quantity)
  {
    hide Blend, NotionalOf, ReductionPnl;
  }

  /** A fill on the other side keeps the account of realized P&L exactly when it is a
      partial reduction, or a flip of a position whose realized P&L, this fill's
      included, is zero: a flip forgets it. */
  lemma RealizedPnlIff(p: P.PositionData, f: Fill)
    requires p.quantity >= 0.0 && p.side != f.side && f.quantity != p.quantity
    ensures var taken := if f.quantity < p.quantity then f.quantity else p.quantity;
            var r := UpdatedPosition(Some(p), f);
            r.Ok? && (r.value.realizedPnl == p.realizedPnl + ReductionPnl(p, f, taken)
                      <==> f.quantity < p.quantity || p.realizedPnl + ReductionPnl(p, f, p.quantity) == 0.0)
  {
    hide ReductionPnl;
  }

  /** The manager's realized P&L is what `Position::close` books, and for part of a
      position it is `Fill::pnl` before commission, exactly when the fill is on the
      closing side (or trades at the entry price). */
  lemma RealizedPnlAgrees(p: P.PositionData, f: Fill)
    ensures ReductionPnl(p, f, p.quantity) == p.Gain(f.price)
    ensures f.Pnl(p.avgEntryPrice) + f.Commission() == ReductionPnl(p, f, f.quantity)
            <==> f.side != p.side || f.price == p.avgEntryPrice
  {
    var d, q := f.price - p.avgEntryPrice, f.quantity;
    assert (p.avgEntryPrice - f.price) * p.quantity == -((f.price - p.avgEntryPrice) * p.quantity);
    assert (p.avgEntryPrice - f.price) * q == -(d * q);
    ZeroProduct(d, q);
  }

  lemma ZeroProduct(d: real, q: real)
    requires q > 0.0
    ensures d * q == -(d * q) <==> d == 0.0
  {
    if d > 0.0 {
      assert d * q > 0.0;
    } else if d < 0.0 {
      assert d * q < 0.0;
    }
  }

  type Book = m: map<Symbol, P.PositionData> | forall s :: s in m ==> m[s].quantity >= 0.0

  function Stored(book: Book, symbol: Symbol): Option<P.PositionData> {
    if symbol in book then Some(book[symbol]) else None
  }

  function BookAfter(book: Book, f: Fill): Book {
    match UpdatedPosition(Stored(book, f.symbol), f)
    case Ok(p) => UpdatedIsNonNegative(Stored(book, f.symbol), f); book[f.symbol := p]
    case Err(_) => book
  }

  lemma UpdatedIsNonNegative(stored: Option<P.PositionData>, f: Fill)
    requires stored.Some? ==> stored.value.quantity >= 0.0
    ensures UpdatedPosition(stored, f).Ok? ==> UpdatedPosition(stored, f).value.quantity >= 0.0
  {
    hide Blend, NotionalOf, ReductionPnl;
  }

  function BookRun(book: Book, fills: seq<Fill>): Book {
    if fills == [] then book else BookAfter(BookRun(book, Front(fills)), Last(fills))
  }

  /** No run of fills ever opens a position: the book holds the symbols it began with. */
  lemma {:induction false} FillsNeverOpenPositions(book: Book, fills: seq<Fill>)
    ensures BookRun(book, fills).Keys == book.Keys
    decreases |fills|
  {
    if fills != [] {
      FillsNeverOpenPositions(book, Front(fills));
      hide UpdatedPosition;
      var before, f := BookRun(book, Front(fills)), Last(fills);
      if f.symbol !in before {
        NettingIff(Stored(before, f.symbol), f);
      }
    }
  }

  function AccountRun(a: Account, symbol: Symbol, fills: seq<Fill>): (r: Account)
    requires Quantity(a) >= 0.0
    ensures Quantity(r) >= 0.0
  {
    if fills == [] then a
    else
      var before := AccountRun(a, symbol, Front(fills));
      if Last(fills).symbol == symbol then
        StepKeepsQuantity(before, Last(fills));
        AccountStep(before, Last(fills))
      else before
  }

  lemma StepKeepsQuantity(a: Account, f: Fill)
    requires Quantity(a) >= 0.0
    ensures Quantity(AccountStep(a, f)) >= 0.0
  {
    SumSnoc(P.LotQuantity, a.ledger.lots, P.Lot(f.price, f.quantity));
    if f.side != a.side && f.quantity > Quantity(a) {
      SumSnoc(P.LotQuantity, [], P.Lot(f.price, f.quantity - Quantity(a)));
      assert [] + [P.Lot(f.price, f.quantity - Quantity(a))] == [P.Lot(f.price, f.quantity - Quantity(a))];
    }
    hide ShareOfHistory, P.HistoryPnl;
  }

  /** Over every run of fills of any symbols, flips, reductions and refused fills
      included, a stored position goes on describing the account of its symbol's fills. */
  lemma {:induction false} BookMatchesAccounts(book: Book, symbol: Symbol, a: Account, fills: seq<Fill>)
    requires symbol in book && Describes(book[symbol], a) && Quantity(a) >= 0.0
    ensures symbol in BookRun(book, fills)
    ensures Describes(BookRun(book, fills)[symbol], AccountRun(a, symbol, fills))
    decreases |fills|
  {
    hide Describes, UpdatedPosition, AccountStep, Quantity;
    if fills != [] {
      var before, f := BookRun(book, Front(fills)), Last(fills);
      BookMatchesAccounts(book, symbol, a, Front(fills));
      if f.symbol == symbol {
        UpdateMatchesAccount(before[symbol], AccountRun(a, symbol, Front(fills)), f);
      }
    }
  }

  /** Over a run in which every fill of the symbol scales in or flips, the net
      position is the initial one plus all signed fill quantities. */
  lemma {:induction false} NetFollowsFills(book: Book, symbol: Symbol, fills: seq<Fill>)
    requires symbol in book
    requires forall i :: 0 <= i < |fills| ==> fills[i].symbol == symbol && Nets(BookRun(book, fills[..i]), fills[i])
    ensures symbol in BookRun(book, fills)
    ensures Net(Stored(BookRun(book, fills), symbol)) == Net(Stored(book, symbol)) + Sum(SignedQuantity, fills)
    decreases |fills|
  {
    if fills != [] {
      var front, f := Front(fills), Last(fills);
      assert forall i :: 0 <= i < |front| ==> fills[..i] == front[..i];
      NetFollowsFills(book, symbol, front);
      assert fills[..|fills| - 1] == front;
      hide UpdatedPosition;
      NettingIff(Stored(BookRun(book, front), symbol), f);
    }
  }

  function SignedQuantity(f: Fill): real { f.side.Signed(f.quantity) }

  predicate Nets(book: Book, f: Fill) {
    f.symbol in book && (book[f.symbol].side == f.side || f.quantity > book[f.symbol].quantity)
  }

  class PositionManager {
    var positions: Book   // the position repository

    constructor (positions: Book)
      ensures this.positions == positions
    {
      this.positions := positions;
    }

    /** `readable` is the repository's answer to the read, `upsert` to the write, which
        may take effect although it reports an error. */
    method UpdatePosition(f: Fill, readable: bool, upsert: WriteOutcome) returns (r: Result<PositionChange, LifecycleError>)
      modifies this
      ensures positions == if readable && upsert.TakesEffect() then BookAfter(old(positions), f) else old(positions)
      ensures if !readable then r == Err(Repository)
              else match UpdatedPosition(Stored(old(positions), f.symbol), f)
                case Ok(_) =>
                  r == if upsert.Done? then Ok(ChangeKind(old(positions)[f.symbol], f)) else Err(Repository)
                case Err(e) => r == Err(e)
    {
      if !readable {
        return Err(Repository);
      }
      if f.symbol !in positions {
        return Err(Repository);   // Quantity::new(0)
      }
      var position := positions[f.symbol];
      var change := ChangeKind(position, f);
      if position.side == f.side {
        position := P.AddFill(position, f).value;
      } else {
        var remaining := position.quantity - f.quantity;
        if remaining <= 0.0 {
          position := P.AddRealizedPnl(position, ReductionPnl(position, f, position.quantity));
          if remaining < 0.0 {
            position := P.NewPosition(f.symbol, f.side, -remaining, f.price);
          } else {
            return Err(Repository);   // Quantity::new(0)
          }
        } else {
          position := P.AddRealizedPnl(position, ReductionPnl(position, f, f.quantity));
        }
      }
      if upsert.TakesEffect() {
        positions := positions[f.symbol := position];
      }
      r := if upsert.Done? then Ok(change) else Err(Repository);
    }
  }
}
