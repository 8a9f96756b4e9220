/**
 The account-summary extractor for the Interactive Brokers gateway.

 The vendor library drives the extractor through callbacks: it reports the
 next valid request id, then streams one field update per (account, tag),
 the server time, and finally the end of the summary. The extractor
 aggregates the updates into one record per account and raises a completion
 flag at the end.

 This module holds the values the extractor works on, a pure specification
 of each callback (`Apply`) and of a whole callback stream (`Run`), and the
 class `App`, whose methods update its fields in place as the extractor does.
 Outbound requests to the vendor are recorded in the log `sent`.
 */
module IBAccountSummary {

  /** A value in an account record: the vendor's tag values and the currency
      are strings, the stamped server time is an integer. */
  datatype Val = S(str: string) | I(num: int)

  /** One account's record: tag -> value, plus the keys "currency" and "time". */
  type Record = map<string, Val>

  /** The aggregated data: account id -> record. */
  type Accounts = map<string, Record>

  /** An outbound request to the vendor. */
  datatype Req =
    | AccountSummaryReq(reqId: int, group: string, tags: string)
    | CurrentTimeReq

  /** An inbound callback from the vendor. */
  datatype Event =
    | Ready(orderId: int)                                                     // nextValidId
    | FieldUpdate(reqId: int, account: string, tag: string, value: string, currency: string) // accountSummary
    | ServerTime(time: int)                                                   // currentTime
    | SummaryEnd(reqId: int)                                                  // accountSummaryEnd

  /** The extractor's fields, as a value. */
  datatype State = State(accounts: Accounts, currentTime: int, reqId: int, done: bool, sent: seq<Req>)

  /** The account group requested: every account. */
  const AllAccounts: string := "All"

  /** The fixed list of tags requested for each account. */
  const SummaryTags: string := "AccountType,NetLiquidation,TotalCashValue,AccruedCash,GrossPositionValue"

  /** The key under which a record keeps its currency. */
  const CurrencyKey: string := "currency"

  /** The key under which a record keeps the stamped server time. */
  const TimeKey: string := "time"

  /** Every record has a string-valued currency entry. */
  predicate WellFormed(accounts: Accounts)
  {
    forall a :: a in accounts ==> CurrencyKey in accounts[a] && accounts[a][CurrencyKey].S?
  }

  /** The state before any callback: no accounts, time 0, request id 0,
      the completion flag unset and no request sent. */
  function Initial(): (st: State)
    ensures st.accounts == map[] && st.currentTime == 0 && st.reqId == 0
    ensures !st.done && st.sent == []
    ensures WellFormed(st.accounts)
  {
    State(map[], 0, 0, false, [])
  }

  /** The two requests issued once the request id `o` is known: the account
      summary for all accounts with the fixed tag list, then the server time. */
  function ReadyRequests(o: int): (rs: seq<Req>)
  {
    [AccountSummaryReq(o, AllAccounts, SummaryTags), CurrentTimeReq]
  }

  /** One field update folded into the accounts: the account's record is
      created with an empty currency if missing, a non-empty currency
      replaces the stored one, and then the tag takes the value. */
  function Upsert(accounts: Accounts, a: string, t: string, v: string, c: string): (r: Accounts)
    ensures r.Keys == accounts.Keys + {a}
    ensures forall b :: b in accounts && b != a ==> r[b] == accounts[b]
    ensures t in r[a] && r[a][t] == S(v)
    ensures r[a].Keys == (if a in accounts then accounts[a].Keys else {CurrencyKey})
                         + (if c != "" then {CurrencyKey} else {}) + {t}
    ensures t != CurrencyKey && c != "" ==> r[a][CurrencyKey] == S(c)
    ensures (t != CurrencyKey && c == "" && a in accounts && CurrencyKey in accounts[a]) ==>
              r[a][CurrencyKey] == accounts[a][CurrencyKey]
    ensures t != CurrencyKey && c == "" && a !in accounts ==> r[a][CurrencyKey] == S("")
    ensures a in accounts ==>
              forall k :: k in accounts[a] && k != CurrencyKey && k != t ==> r[a][k] == accounts[a][k]
    ensures WellFormed(accounts) ==> WellFormed(r)
  {
    var rec := if a in accounts then accounts[a] else map[CurrencyKey := S("")];
    var rec' := if c != "" then rec[CurrencyKey := S(c)] else rec;
    accounts[a := rec'[t := S(v)]]
  }

  /** Every existing record receives the time `time`; nothing else changes. */
  function Stamp(accounts: Accounts, time: int): (r: Accounts)
    ensures r.Keys == accounts.Keys
    ensures forall a :: a in r ==> TimeKey in r[a] && r[a][TimeKey] == I(time)
    ensures forall a, k :: a in r ==> (k in r[a] <==> k in accounts[a] || k == TimeKey)
    ensures forall a, k :: a in accounts && k in accounts[a] && k != TimeKey ==> r[a][k] == accounts[a][k]
    ensures WellFormed(accounts) ==> WellFormed(r)
  {
    map a | a in accounts :: accounts[a][TimeKey := I(time)]
  }

  /** The effect of one callback on the extractor's fields. The request id
      carried by field updates and by the end of the summary is not checked. */
  function Apply(st: State, e: Event): (st': State)
    ensures st.accounts.Keys <= st'.accounts.Keys
    ensures st.done ==> st'.done
    ensures st.sent <= st'.sent
  {
    match e
    case Ready(o) => st.(reqId := o, sent := st.sent + ReadyRequests(o))
    case FieldUpdate(_, a, t, v, c) => st.(accounts := Upsert(st.accounts, a, t, v, c))
    case ServerTime(x) => st.(currentTime := x)
    case SummaryEnd(_) => st.(accounts := Stamp(st.accounts, st.currentTime), done := true)
  }

  /** The effect of a stream of callbacks, delivered in order. */
  function Run(st: State, evs: seq<Event>): (st': State)
    ensures st.accounts.Keys <= st'.accounts.Keys
    ensures st.done ==> st'.done
    ensures st.sent <= st'.sent
    decreases |evs|
  {
    if evs == [] then st else Run(Apply(st, evs[0]), evs[1..])
  }

  /** The extractor object: its fields are updated in place by the callbacks. */
  class App {
    var accounts: Accounts
    var currentTime: int
    var reqId: int
    var done: bool
    var sent: seq<Req>

    /** The fields as a value, so that the methods can be tied to `Apply`. */
    function Snapshot(): (st: State)
      reads this
    {
      State(accounts, currentTime, reqId, done, sent)
    }

    ghost predicate Valid()
      reads this
    {
      WellFormed(accounts)
    }

    constructor ()
      ensures Valid()
      ensures accounts == map[] && currentTime == 0 && reqId == 0 && !done && sent == []
      ensures Snapshot() == Initial()
    {
      accounts := map[];
      currentTime := 0;
      reqId := 0;
      done := false;
      sent := [];
    }

    /** Issues the account-summary request under the stored request id. */
    method Start()
      modifies this`sent
      ensures sent == old(sent) + [AccountSummaryReq(reqId, AllAccounts, SummaryTags)]
    {
      sent := sent + [AccountSummaryReq(reqId, AllAccounts, SummaryTags)];
    }

    /** The vendor reports the next valid id: store it as the request id,
        issue the account-summary request, then the server-time request. */
    method NextValidId(orderId: int)
      requires Valid()
      modifies this
      ensures Valid()
      ensures reqId == orderId
      ensures sent == old(sent) + [AccountSummaryReq(orderId, AllAccounts, SummaryTags), CurrentTimeReq]
      ensures accounts == old(accounts) && currentTime == old(currentTime) && done == old(done)
      ensures Snapshot() == Apply(old(Snapshot()), Ready(orderId))
    {
      reqId := orderId;
      Start();
      sent := sent + [CurrentTimeReq];
    }

    /** One field of one account arrives. */
    method AccountSummary(requestId: int, account: string, tag: string, value: string, currency: string)
      requires Valid()
      modifies this
      ensures Valid()
      ensures accounts == Upsert(old(accounts), account, tag, value, currency)
      ensures currentTime == old(currentTime) && reqId == old(reqId) && done == old(done) && sent == old(sent)
      ensures Snapshot() == Apply(old(Snapshot()), FieldUpdate(requestId, account, tag, value, currency))
    {
      ghost var before := accounts;
      if account !in accounts {
        accounts := accounts[account := map[CurrencyKey := S("")]];
      }
      var rec := accounts[account];
      assert rec == if account in before then before[account] else map[CurrencyKey := S("")];
      if currency != "" {
        rec := rec[CurrencyKey := S(currency)];
      }
      rec := rec[tag := S(value)];
      accounts := accounts[account := rec];
      assert accounts == before[account := rec];
    }

    /** The server time arrives. */
    method CurrentTime(time: int)
      requires Valid()
      modifies this
      ensures Valid()
      ensures currentTime == time
      ensures accounts == old(accounts) && reqId == old(reqId) && done == old(done) && sent == old(sent)
      ensures Snapshot() == Apply(old(Snapshot()), ServerTime(time))
    {
      currentTime := time;
    }

    /** The summary is complete: stamp the stored server time onto every
        record, one account at a time, then raise the completion flag. */
    method AccountSummaryEnd(requestId: int)
      requires Valid()
      modifies this
      ensures Valid()
      ensures accounts == Stamp(old(accounts), old(currentTime))
      ensures done
      ensures currentTime == old(currentTime) && reqId == old(reqId) && sent == old(sent)
      ensures Snapshot() == Apply(old(Snapshot()), SummaryEnd(requestId))
    {
      var pending := accounts.Keys;
      while pending != {}
        invariant pending <= accounts.Keys == old(accounts).Keys
        invariant forall a :: a in accounts ==>
                    accounts[a] == if a in pending then old(accounts)[a]
                                   else old(accounts)[a][TimeKey := I(currentTime)]
        invariant currentTime == old(currentTime) && reqId == old(reqId) && sent == old(sent)
        decreases pending
      {
        var a :| a in pending;
        accounts := accounts[a := accounts[a][TimeKey := I(currentTime)]];
        pending := pending - {a};
      }
      assert accounts == Stamp(old(accounts), currentTime);
      done := true;
    }
  }
}
