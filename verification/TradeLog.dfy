/** The persisted trade table: written on every close, summed again after a restart. */
module TradeLog {
  import opened Domain
  import opened TradingDay
  import opened SimBroker
  import opened BrokerRuns
  import opened BrokerLaws

  datatype TradeRow = TradeRow(
    positionId: nat, strategyId: string, symbol: string, side: Side, openTs: int, closeTs: int,
    openPrice: real, closePrice: real, volume: real, pnl: real)

  function RowFor(
      strategyForMagic: map<int, string>, pos: Position, volume: real, pnl: real, closePrice: Option<real>, now: int)
    : TradeRow
  {
    TradeRow(pos.ticket, GetOr(strategyForMagic, pos.magic, ""), pos.symbol, pos.side, pos.openTime, now,
             pos.openPrice, if closePrice.Some? then closePrice.value else pos.openPrice, volume, pnl)
  }

  /** The row that the persister adds for an event, if it handles it. */
  function RowsFor(strategyForMagic: map<int, string>, e: Event, now: int): seq<TradeRow> {
    match e
    case PositionClosed(p, pnl, price) => [RowFor(strategyForMagic, p, p.volume, pnl, Some(price), now)]
    case PartialClosed(p, volume, pnl, price) => [RowFor(strategyForMagic, p, volume, pnl, Some(price), now)]
    case _ => []
  }

  function TotalSince(rows: seq<TradeRow>, since: int): real {
    if rows == [] then 0.0
    else
      var last := rows[|rows| - 1];
      TotalSince(rows[..|rows| - 1], since) + if last.closeTs >= since then last.pnl else 0.0
  }

  /** The profit of one symbol's trades closed at or after `since`. */
  function SymbolTotalSince(rows: seq<TradeRow>, symbol: string, since: int): real {
    if rows == [] then 0.0
    else
      var last := rows[|rows| - 1];
      SymbolTotalSince(rows[..|rows| - 1], symbol, since)
        + if last.closeTs >= since && last.symbol == symbol then last.pnl else 0.0
  }

  ghost predicate OccursSince(rows: seq<TradeRow>, symbol: string, since: int) {
    exists r :: r in rows && r.closeTs >= since && r.symbol == symbol
  }

  /** `bySymbol` holds the profit of each symbol that occurs, and nothing else. */
  ghost predicate SumsBySymbol(bySymbol: map<string, real>, rows: seq<TradeRow>, since: int) {
    forall symbol ::
      && GetOr(bySymbol, symbol, 0.0) == SymbolTotalSince(rows, symbol, since)
      && (symbol in bySymbol <==> OccursSince(rows, symbol, since))
  }

  lemma OneMoreOccurs(rows: seq<TradeRow>, row: TradeRow, symbol: string, since: int)
    ensures OccursSince(rows + [row], symbol, since)
       <==> OccursSince(rows, symbol, since) || (row.closeTs >= since && row.symbol == symbol)
  {
    if OccursSince(rows, symbol, since) {
      var r :| r in rows && r.closeTs >= since && r.symbol == symbol;
      assert r in rows + [row];
    }
    assert row in rows + [row];
  }

  lemma OneMoreSummed(bySymbol: map<string, real>, rows: seq<TradeRow>, row: TradeRow, since: int)
    requires SumsBySymbol(bySymbol, rows, since)
    ensures row.closeTs < since ==> SumsBySymbol(bySymbol, rows + [row], since)
    ensures row.closeTs >= since ==>
      SumsBySymbol(bySymbol[row.symbol := GetOr(bySymbol, row.symbol, 0.0) + row.pnl], rows + [row], since)
    ensures TotalSince(rows + [row], since) == TotalSince(rows, since) + if row.closeTs >= since then row.pnl else 0.0
  {
    hide OccursSince;
    assert (rows + [row])[..|rows|] == rows;
    forall symbol
      ensures SymbolTotalSince(rows + [row], symbol, since) == SymbolTotalSince(rows, symbol, since)
        + if row.closeTs >= since && row.symbol == symbol then row.pnl else 0.0
      ensures OccursSince(rows + [row], symbol, since)
         <==> OccursSince(rows, symbol, since) || (row.closeTs >= since && row.symbol == symbol)
    {
      OneMoreOccurs(rows, row, symbol, since);
    }
  }

  lemma NothingSummed(since: int)
    ensures TotalSince([], since) == 0.0 && SumsBySymbol(map[], [], since)
  {
  }

  class TradeRepo {
    var rows: seq<TradeRow>

    constructor ()
      ensures rows == []
    {
      rows := [];
    }

    method Add(row: TradeRow)
      modifies this
      ensures rows == old(rows) + [row]
    {
      rows := rows + [row];
    }

    /** Sums what was closed at or after `since`, in total and by symbol. */
    method RealizedSince(since: int) returns (total: real, bySymbol: map<string, real>)
      ensures total == TotalSince(rows, since)
      ensures SumsBySymbol(bySymbol, rows, since)
    {
      hide TotalSince, SumsBySymbol;
      total, bySymbol := 0.0, map[];
      NothingSummed(since);
      for i := 0 to |rows|
        invariant total == TotalSince(rows[..i], since) && SumsBySymbol(bySymbol, rows[..i], since)
      {
        assert rows[..i + 1] == rows[..i] + [rows[i]];
        var r := rows[i];
        OneMoreSummed(bySymbol, rows[..i], r, since);
        if r.closeTs >= since {
          total := total + r.pnl;
          bySymbol := bySymbol[r.symbol := GetOr(bySymbol, r.symbol, 0.0) + r.pnl];
        }
      }
      assert rows[..|rows|] == rows;
    }
  }

  class TradePersister {
    const repo: TradeRepo
    const strategyForMagic: map<int, string>

    constructor (repo: TradeRepo, strategyForMagic: map<int, string>)
      ensures this.repo == repo && this.strategyForMagic == strategyForMagic
    {
      this.repo, this.strategyForMagic := repo, strategyForMagic;
    }

    method OnClosed(pos: Position, pnl: real, closePrice: Option<real>, now: int)
      modifies repo
      ensures repo.rows == old(repo.rows) + [RowFor(strategyForMagic, pos, pos.volume, pnl, closePrice, now)]
    {
      repo.Add(RowFor(strategyForMagic, pos, pos.volume, pnl, closePrice, now));
    }

    method OnPartialClosed(pos: Position, closedVolume: real, pnl: real, closePrice: Option<real>, now: int)
      modifies repo
      ensures repo.rows == old(repo.rows) + [RowFor(strategyForMagic, pos, closedVolume, pnl, closePrice, now)]
    {
      repo.Add(RowFor(strategyForMagic, pos, closedVolume, pnl, closePrice, now));
    }
  }

  /** The table row of a close is the broker's own record of it: the chunk closed, at the prices and for the profit
      booked, under the position's ticket, symbol and owner. */
  lemma RowIsTheRecord(
      t: Terms, b: Books, ticket: nat, volume: Option<real>, strategyForMagic: map<int, string>, now: int)
    requires Consistent(b) && ValidAnchor(t.rolloverHour) && ticket in b.positions
    ensures
      var b' := Close(t, b, ticket, volume).0;
      && |b'.trades| == |b.trades| + 1 && |b.events| < |b'.events| && b.events <= b'.events
      && var pos, trade := b.positions[ticket], b'.trades[|b.trades|];
         var rows := RowsFor(strategyForMagic, b'.events[|b.events|], now);
         && |rows| == 1
         && rows[0].positionId == ticket && rows[0].symbol == pos.symbol && rows[0].side == trade.side
         && rows[0].openTs == trade.openTs && rows[0].closeTs == now
         && rows[0].openPrice == trade.openPrice && rows[0].closePrice == trade.closePrice
         && rows[0].volume == trade.volume && rows[0].pnl == trade.pnl
         && rows[0].strategyId == if pos.magic in strategyForMagic then strategyForMagic[pos.magic] else ""
  {
    hide Close;
    CloseExactly(t, b, ticket, volume);
  }

  /** The sum over any list of distinct symbols. */
  function SumSymbols(rows: seq<TradeRow>, symbols: seq<string>, since: int): real {
    if symbols == [] then 0.0
    else SumSymbols(rows, symbols[1..], since) + SymbolTotalSince(rows, symbols[0], since)
  }

  /** The total is the sum over the symbols, for every listing of the symbols that occur. */
  lemma {:induction false} TotalIsSumOverSymbols(rows: seq<TradeRow>, symbols: seq<string>, since: int)
    requires Distinct(symbols)
    requires forall r :: r in rows && r.closeTs >= since ==> r.symbol in symbols
    ensures TotalSince(rows, since) == SumSymbols(rows, symbols, since)
  {
    if rows == [] {
      SumOfNothing(symbols, since);
    } else {
      var init, last := rows[..|rows| - 1], rows[|rows| - 1];
      assert last in rows && forall r :: r in init ==> r in rows;
      TotalIsSumOverSymbols(init, symbols, since);
      SumOneMore(init, last, symbols, since);
      assert init + [last] == rows;
    }
  }

  lemma {:induction false} SumOfNothing(symbols: seq<string>, since: int)
    ensures SumSymbols([], symbols, since) == 0.0
  {
    if symbols != [] {
      SumOfNothing(symbols[1..], since);
    }
  }

  lemma {:induction false} SumOneMore(rows: seq<TradeRow>, row: TradeRow, symbols: seq<string>, since: int)
    requires Distinct(symbols)
    ensures SumSymbols(rows + [row], symbols, since) == SumSymbols(rows, symbols, since)
      + if row.closeTs >= since && row.symbol in symbols then row.pnl else 0.0
  {
    if symbols != [] {
      SumOneMore(rows, row, symbols[1..], since);
      assert (rows + [row])[..|rows|] == rows;
      assert symbols == [symbols[0]] + symbols[1..];
    }
  }
}
