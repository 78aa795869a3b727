/** scan.py: fetching a wallet's recent signatures and their transaction details from the
    RPC provider, and extracting the wallet's balance change (in lamports) per transaction.

    The provider is not called: each HTTP exchange is an input value (`Reply`), and the
    detail reply for a signature is given by a function `detailOf`. */
module Scan {
  import opened Wrappers

  type Address = string
  type Signature = string

  const StatusOk: int := 200
  const StatusTooManyRequests: int := 429

  /** The JSON body of a reply, as `response.json().get("result", default)` sees it. */
  datatype Body<T> =
    | Unparseable        // response.json() raises; the fetcher's `except` returns the default
    | NoResult           // no "result" key: the default is returned
    | NullResult         // "result": null, handed to the caller as Python None
    | Result(value: T)

  /** How one `requests.post` ended: it raised, or an HTTP status with a body. */
  datatype Reply<T> = Raised | Http(status: int, body: Body<T>)

  /** What a fetcher returns for its final reply; `None` stands for Python None. */
  function Decoded<T>(reply: Reply<T>, default: T): (r: Option<T>)
    ensures !(reply.Http? && reply.status == StatusOk) ==> r == Some(default)
    ensures r.None? <==> reply.Http? && reply.status == StatusOk && reply.body.NullResult?
    ensures r.Some? && r.value != default ==> reply == Http(StatusOk, Result(r.value))
    // a 200 reply carrying a result gives exactly that result
    ensures reply.Http? && reply.status == StatusOk && reply.body.Result? ==> r == Some(reply.body.value)
  {
    if reply.Http? && reply.status == StatusOk then
      match reply.body
      case Unparseable => Some(default)
      case NoResult => Some(default)
      case NullResult => None
      case Result(v) => Some(v)
    else
      Some(default)
  }

  /** The reply get_transactions reads its result from: the retry's after a 429, else the first. */
  function FinalReply<T>(first: Reply<T>, retry: Reply<T>): Reply<T> {
    if first.Http? && first.status == StatusTooManyRequests then retry else first
  }

  /** get_transactions: one request, and a single retry only when the first answer is 429.
      `requests` counts the calls to `requests.post` (the 2-second sleep is left out). */
  method GetTransactions(first: Reply<seq<Signature>>, retry: Reply<seq<Signature>>)
    returns (sigs: Option<seq<Signature>>, requests: nat)
    ensures 1 <= requests <= 2
    ensures requests == 2 <==> first.Http? && first.status == StatusTooManyRequests
    ensures requests == 1 ==> sigs == Decoded(first, [])
    ensures requests == 2 ==> sigs == Decoded(retry, [])
    ensures sigs == Decoded(FinalReply(first, retry), [])
  {
    var response := first;
    requests := 1;
    if response.Http? && response.status == StatusTooManyRequests {
      response := retry;
      requests := 2;
    }
    if response.Http? && response.status == StatusOk {
      match response.body
      case Unparseable => sigs := Some([]);
      case NoResult => sigs := Some([]);
      case NullResult => sigs := None;
      case Result(v) => sigs := Some(v);
    } else {
      sigs := Some([]);
    }
  }

  // The parts of a getTransaction result that export_trades looks at. `None` is an absent key.
  datatype Message = Message(accountKeys: Option<seq<Address>>)
  datatype TransactionInfo = TransactionInfo(message: Option<Message>)
  datatype Meta = Meta(preBalances: Option<seq<int>>, postBalances: Option<seq<int>>)

  datatype TxDetail = TxDetail(transaction: Option<TransactionInfo>, meta: Option<Meta>, blockTime: Option<int>)
  {
    /** The sections export_trades insists on: transaction, meta, message and both balance arrays. */
    predicate HasSections() {
      && transaction.Some? && meta.Some? && transaction.value.message.Some?
      && meta.value.preBalances.Some? && meta.value.postBalances.Some?
    }

    /** The account keys, `[]` when the message has none. */
    function AccountKeys(): seq<Address>
      requires HasSections()
    {
      transaction.value.message.value.accountKeys.GetOr([])
    }

    function PreBalances(): seq<int>
      requires HasSections()
    {
      meta.value.preBalances.value
    }

    function PostBalances(): seq<int>
      requires HasSections()
    {
      meta.value.postBalances.value
    }
  }

  /** The empty dict get_transaction_details falls back to. */
  const EmptyDetail: TxDetail := TxDetail(None, None, None)

  /** get_transaction_details: the decoded detail, the empty record on any failure. */
  function TransactionDetails(reply: Reply<TxDetail>): (d: Option<TxDetail>)
    ensures !(reply.Http? && reply.status == StatusOk) ==> d == Some(EmptyDetail)
    ensures d.None? <==> reply == Http(StatusOk, NullResult)
    ensures reply.Http? && reply.status == StatusOk && reply.body.Result? ==> d == Some(reply.body.value)
    // a 200 reply whose body does not parse, or has no "result", also gives the empty record
    ensures reply.Http? && reply.status == StatusOk && (reply.body.Unparseable? || reply.body.NoResult?) ==>
              d == Some(EmptyDetail)
  {
    Decoded(reply, EmptyDetail)
  }

  /** One output row: the "Time" and "Wallet Delta" columns of one kept transaction. */
  datatype Row = Row(time: int, delta: int)

  /** `i` is the position `list.index` reports: the first occurrence of `wallet`. */
  ghost predicate IsFirstIndex(keys: seq<Address>, wallet: Address, i: int) {
    0 <= i < |keys| && keys[i] == wallet && wallet !in keys[..i]
  }

  lemma FirstIndexUnique(keys: seq<Address>, wallet: Address, i: int, j: int)
    requires IsFirstIndex(keys, wallet, i) && IsFirstIndex(keys, wallet, j)
    ensures i == j
  {
  }

  /** `account_keys.index(wallet_address)`, with `None` for the ValueError. */
  function IndexOf(keys: seq<Address>, wallet: Address): (r: Option<nat>)
    ensures r.None? <==> wallet !in keys
    ensures r.Some? ==> IsFirstIndex(keys, wallet, r.value)
  {
    if keys == [] then None
    else if keys[0] == wallet then Some(0)
    else
      match IndexOf(keys[1..], wallet)
      case None => None
      case Some(i) =>
        assert keys[..i + 1] == [keys[0]] + keys[1..][..i];
        Some(i + 1)
  }

  /** The row one detail record contributes to export_trades's output, or `None` when the
      record is skipped; the checks run in the order of scan.py. */
  function ExtractDelta(detail: TxDetail, wallet: Address): (row: Option<Row>)
    // a record lacking transaction, meta, message or a balance array is skipped
    ensures !detail.HasSections() ==> row.None?
    // so is one without blockTime, however valid its balances
    ensures detail.blockTime.None? ==> row.None?
  {
    if detail.transaction.None? || detail.meta.None? then None
    else if detail.transaction.value.message.None? then None
    else if detail.meta.value.preBalances.None? || detail.meta.value.postBalances.None? then None
    else
      match IndexOf(detail.AccountKeys(), wallet)
      case None => None
      case Some(i) =>
        if i >= |detail.PreBalances()| || i >= |detail.PostBalances()| then None
        else if detail.blockTime.None? then None
        else Some(Row(detail.blockTime.value, detail.PostBalances()[i] - detail.PreBalances()[i]))
  }

  /** A worked record: the wallet "A" at index 0 pays 0.1 SOL in the transaction. */
  lemma ExampleDelta()
    ensures ExtractDelta(TxDetail(Some(TransactionInfo(Some(Message(Some(["A", "B"]))))),
                                  Some(Meta(Some([1000000000, 0]), Some([900000000, 0]))),
                                  Some(1700000000)), "A")
            == Some(Row(1700000000, -100000000))
  {
  }

  /** A record whose account keys lack the wallet (an absent list counts as `[]`) is skipped. */
  lemma ExtractDeltaSkipsForeignWallet(detail: TxDetail, wallet: Address)
    requires detail.HasSections() && wallet !in detail.AccountKeys()
    ensures ExtractDelta(detail, wallet).None?
  {
  }

  /** A record is kept exactly when it has every section, a block time, and the wallet's first
      index is in bounds of both balance arrays; the row then holds that block time and
      post - pre at that index. */
  lemma ExtractDeltaKeeps(detail: TxDetail, wallet: Address, i: int)
    requires detail.HasSections() && IsFirstIndex(detail.AccountKeys(), wallet, i)
    ensures ExtractDelta(detail, wallet).Some? <==>
              detail.blockTime.Some? && i < |detail.PreBalances()| && i < |detail.PostBalances()|
    ensures ExtractDelta(detail, wallet).Some? ==>
              ExtractDelta(detail, wallet).value
                == Row(detail.blockTime.value, detail.PostBalances()[i] - detail.PreBalances()[i])
  {
    FirstIndexUnique(detail.AccountKeys(), wallet, i, IndexOf(detail.AccountKeys(), wallet).value);
  }

  function RowsOf(row: Option<Row>): seq<Row> {
    match row
    case None => []
    case Some(r) => [r]
  }

  /** The rows export_trades collects from a sequence of detail records, in their order. */
  function Extracted(details: seq<TxDetail>, wallet: Address): (rows: seq<Row>)
    ensures |rows| <= |details|
  {
    if details == [] then []
    else
      Extracted(details[..|details| - 1], wallet) + RowsOf(ExtractDelta(details[|details| - 1], wallet))
  }

  lemma ExtractedSnoc(details: seq<TxDetail>, d: TxDetail, wallet: Address)
    ensures Extracted(details + [d], wallet) == Extracted(details, wallet) + RowsOf(ExtractDelta(d, wallet))
  {
    assert (details + [d])[..|details|] == details;
  }

  /** Extraction works record by record: the rows of a concatenation are the concatenation of
      the rows, so output rows keep the order of their records. */
  lemma {:induction false} ExtractedAppend(a: seq<TxDetail>, b: seq<TxDetail>, wallet: Address)
    ensures Extracted(a + b, wallet) == Extracted(a, wallet) + Extracted(b, wallet)
  {
    if b == [] {
      assert a + b == a;
    } else {
      var front := b[..|b| - 1];
      assert (a + b)[..|a + b| - 1] == a + front;
      assert (a + b)[|a + b| - 1] == b[|b| - 1];
      ExtractedAppend(a, front, wallet);
    }
  }

  /** A row is output exactly when some record yields it. */
  lemma {:induction false} ExtractedMember(details: seq<TxDetail>, wallet: Address, row: Row)
    ensures row in Extracted(details, wallet) <==>
              exists j :: 0 <= j < |details| && ExtractDelta(details[j], wallet) == Some(row)
  {
    if details != [] {
      var n := |details| - 1;
      var front := details[..n];
      var last := ExtractDelta(details[n], wallet);
      assert Extracted(details, wallet) == Extracted(front, wallet) + RowsOf(last);
      assert row in RowsOf(last) <==> last == Some(row);
      ExtractedMember(front, wallet, row);
      if row in Extracted(front, wallet) {
        var j :| 0 <= j < |front| && ExtractDelta(front[j], wallet) == Some(row);
        assert details[j] == front[j];
      } else if last != Some(row) {
        forall j | 0 <= j < |details| ensures ExtractDelta(details[j], wallet) != Some(row) {
          if j < n {
            assert details[j] == front[j];
          }
        }
      }
    }
  }

  /** The detail records for `sigs`, or `None` when some reply decodes to Python None (on
      which export_trades raises TypeError). */
  function FetchAll(sigs: seq<Signature>, detailOf: Signature -> Reply<TxDetail>): (ds: Option<seq<TxDetail>>)
    ensures ds.Some? <==> forall j :: 0 <= j < |sigs| ==> TransactionDetails(detailOf(sigs[j])).Some?
    ensures ds.Some? ==>
              && |ds.value| == |sigs|
              && forall j :: 0 <= j < |sigs| ==> TransactionDetails(detailOf(sigs[j])) == Some(ds.value[j])
  {
    if sigs == [] then Some([])
    else
      var last := sigs[|sigs| - 1];
      match FetchAll(sigs[..|sigs| - 1], detailOf)
      case None => None
      case Some(prefix) =>
        match TransactionDetails(detailOf(last))
        case None => None
        case Some(d) => Some(prefix + [d])
  }

  lemma FetchAllSnoc(sigs: seq<Signature>, n: nat, detailOf: Signature -> Reply<TxDetail>, prefix: seq<TxDetail>, d: TxDetail)
    requires n < |sigs| && FetchAll(sigs[..n], detailOf) == Some(prefix)
    requires TransactionDetails(detailOf(sigs[n])) == Some(d)
    ensures FetchAll(sigs[..n + 1], detailOf) == Some(prefix + [d])
  {
    assert sigs[..n + 1][..n] == sigs[..n];
  }

  lemma FetchAllFails(sigs: seq<Signature>, n: nat, detailOf: Signature -> Reply<TxDetail>)
    requires n < |sigs| && TransactionDetails(detailOf(sigs[n])).None?
    ensures FetchAll(sigs, detailOf).None?
  {
  }

  /** What export_trades produces for a wallet: its rows, or `None` when it raises. */
  function Exported(wallet: Address, first: Reply<seq<Signature>>, retry: Reply<seq<Signature>>,
                    detailOf: Signature -> Reply<TxDetail>): (rows: Option<seq<Row>>)
    // a failed signature fetch (non-200 final status, or an exception) gives no rows
    ensures !(FinalReply(first, retry).Http? && FinalReply(first, retry).status == StatusOk) ==> rows == Some([])
    // never more rows than signatures
    ensures rows.Some? ==>
              Decoded(FinalReply(first, retry), []).Some?
              && |rows.value| <= |Decoded(FinalReply(first, retry), []).value|
  {
    match Decoded(FinalReply(first, retry), [])
    case None => None
    case Some(sigs) =>
      match FetchAll(sigs, detailOf)
      case None => None
      case Some(details) => Some(Extracted(details, wallet))
  }

  /** The DataFrame export_trades returns: its "Time" and "Wallet Delta" columns. */
  datatype Frame = Frame(times: seq<int>, deltas: seq<int>) {
    function Rows(): (rows: seq<Row>)
      requires |times| == |deltas|
      ensures |rows| == |times|
      decreases |times|
    {
      if times == [] then []
      else Frame(times[..|times| - 1], deltas[..|deltas| - 1]).Rows() + [Row(times[|times| - 1], deltas[|deltas| - 1])]
    }
  }

  lemma RowsSnoc(times: seq<int>, deltas: seq<int>, t: int, d: int)
    requires |times| == |deltas|
    ensures Frame(times + [t], deltas + [d]).Rows() == Frame(times, deltas).Rows() + [Row(t, d)]
  {
    assert (times + [t])[..|times|] == times;
    assert (deltas + [d])[..|deltas|] == deltas;
  }

  /** export_trades: fetch the signatures, then for each one its detail, skipping every record
      that lacks what the delta needs. `None` is the TypeError it raises on a Python None. */
  method ExportTrades(wallet: Address, first: Reply<seq<Signature>>, retry: Reply<seq<Signature>>,
                      detailOf: Signature -> Reply<TxDetail>)
    returns (frame: Option<Frame>)
    ensures frame.Some? <==> Exported(wallet, first, retry, detailOf).Some?
    ensures frame.Some? ==>
              && |frame.value.times| == |frame.value.deltas|
              && frame.value.Rows() == Exported(wallet, first, retry, detailOf).value
  {
    var transactions, _ := GetTransactions(first, retry);
    if transactions.None? {
      return None;
    }
    var sigs := transactions.value;
    var times: seq<int> := [];
    var holdingsDelta: seq<int> := [];
    ghost var fetched: seq<TxDetail> := [];
    for n := 0 to |sigs|
      invariant |times| == |holdingsDelta|
      invariant FetchAll(sigs[..n], detailOf) == Some(fetched)
      invariant Frame(times, holdingsDelta).Rows() == Extracted(fetched, wallet)
    {
      var txDetails := TransactionDetails(detailOf(sigs[n]));
      if txDetails.None? {
        FetchAllFails(sigs, n, detailOf);
        return None;
      }
      var tx := txDetails.value;
      FetchAllSnoc(sigs, n, detailOf, fetched, tx);
      ExtractedSnoc(fetched, tx, wallet);
      fetched := fetched + [tx];
      // the skip conditions of scan.py, checked in its order
      var row := ExtractDelta(tx, wallet);
      if row.None? {
        continue;
      }
      RowsSnoc(times, holdingsDelta, row.value.time, row.value.delta);
      times := times + [row.value.time];
      holdingsDelta := holdingsDelta + [row.value.delta];
    }
    assert sigs[..|sigs|] == sigs;
    assert Exported(wallet, first, retry, detailOf) == Some(Extracted(fetched, wallet));
    frame := Some(Frame(times, holdingsDelta));
  }
}
