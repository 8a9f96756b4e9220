/**
 Properties of the account-summary extractor over whole callback streams:
 what survives, what the last write decides, when the completion flag is
 set, which time every record carries, and that the request id carried by
 the callbacks plays no part.
 */
module SummaryProperties {
  import opened IBAccountSummary

  /** Running two streams one after the other is running their concatenation. */
  lemma {:induction false} RunAppend(st: State, xs: seq<Event>, ys: seq<Event>)
    ensures Run(st, xs + ys) == Run(Run(st, xs), ys)
    decreases |xs|
  {
    if xs == [] {
      assert xs + ys == ys;
    } else {
      assert (xs + ys)[0] == xs[0];
      assert (xs + ys)[1..] == xs[1..] + ys;
      RunAppend(Apply(st, xs[0]), xs[1..], ys);
    }
  }

  /** Splits a stream around its element `i`. */
  lemma RunSplit(st: State, evs: seq<Event>, i: nat)
    requires i < |evs|
    ensures Run(st, evs) == Run(Apply(Run(st, evs[..i]), evs[i]), evs[i + 1..])
  {
    assert evs == evs[..i] + [evs[i]] + evs[i + 1..];
    RunAppend(st, evs[..i] + [evs[i]], evs[i + 1..]);
    RunAppend(st, evs[..i], [evs[i]]);
  }

  /** Every record keeps a string currency, whatever the stream. */
  lemma {:induction false} RunKeepsWellFormed(st: State, evs: seq<Event>)
    requires WellFormed(st.accounts)
    ensures WellFormed(Run(st, evs).accounts)
    decreases |evs|
  {
    if evs != [] {
      RunKeepsWellFormed(Apply(st, evs[0]), evs[1..]);
    }
  }

  /** The accounts that a stream mentions in its field updates. */
  function AccountsIn(evs: seq<Event>): (names: set<string>)
  {
    set i | 0 <= i < |evs| && evs[i].FieldUpdate? :: evs[i].account
  }

  /** No account and no key is ever removed; the accounts afterwards are
      exactly those present before plus those the stream's updates name. */
  lemma {:induction false} RunNeverDeletes(st: State, evs: seq<Event>)
    ensures Run(st, evs).accounts.Keys == st.accounts.Keys + AccountsIn(evs)
    ensures forall a :: a in st.accounts ==> st.accounts[a].Keys <= Run(st, evs).accounts[a].Keys
    decreases |evs|
  {
    if evs == [] {
      assert AccountsIn(evs) == {};
    } else {
      var st' := Apply(st, evs[0]);
      RunNeverDeletes(st', evs[1..]);
      AccountsInCons(evs);
    }
  }

  /** The accounts named by a stream: those of its first callback and those
      of the rest. */
  lemma AccountsInCons(evs: seq<Event>)
    requires evs != []
    ensures AccountsIn(evs) == (if evs[0].FieldUpdate? then {evs[0].account} else {}) + AccountsIn(evs[1..])
  {
  }

  /** Whether callback `e` may write the key `k` of account `a`. */
  predicate Writes(e: Event, a: string, k: string)
  {
    match e
    case FieldUpdate(_, b, t, _, c) => b == a && (k == t || (k == CurrencyKey && c != ""))
    case SummaryEnd(_) => k == TimeKey
    case _ => false
  }

  /** A key that no callback of the stream writes keeps its value. */
  lemma {:induction false} UnwrittenKeyKept(st: State, evs: seq<Event>, a: string, k: string)
    requires a in st.accounts && k in st.accounts[a]
    requires forall j :: 0 <= j < |evs| ==> !Writes(evs[j], a, k)
    ensures a in Run(st, evs).accounts && k in Run(st, evs).accounts[a]
    ensures Run(st, evs).accounts[a][k] == st.accounts[a][k]
    decreases |evs|
  {
    if evs != [] {
      assert !Writes(evs[0], a, k);
      var st' := Apply(st, evs[0]);
      assert a in st'.accounts && k in st'.accounts[a] && st'.accounts[a][k] == st.accounts[a][k];
      forall j | 0 <= j < |evs[1..]| ensures !Writes(evs[1..][j], a, k) {
        assert evs[1..][j] == evs[j + 1];
      }
      UnwrittenKeyKept(st', evs[1..], a, k);
    }
  }

  /** Last write wins: after a stream, a tag of an account holds the value
      of the last update that wrote it. */
  lemma LastWriteWins(st: State, evs: seq<Event>, i: nat)
    requires i < |evs| && evs[i].FieldUpdate?
    requires forall j :: i < j < |evs| ==> !Writes(evs[j], evs[i].account, evs[i].tag)
    ensures evs[i].account in Run(st, evs).accounts
    ensures evs[i].tag in Run(st, evs).accounts[evs[i].account]
    ensures Run(st, evs).accounts[evs[i].account][evs[i].tag] == S(evs[i].value)
  {
    var e := evs[i];
    RunSplit(st, evs, i);
    var mid := Apply(Run(st, evs[..i]), e);
    var rest := evs[i + 1..];
    forall j | 0 <= j < |rest| ensures !Writes(rest[j], e.account, e.tag) {
      assert rest[j] == evs[i + 1 + j];
    }
    UnwrittenKeyKept(mid, rest, e.account, e.tag);
  }

  /** The currency of an account is the last non-empty currency supplied for
      it, as long as no update uses "currency" itself as its tag. */
  lemma LastCurrencyWins(st: State, evs: seq<Event>, i: nat)
    requires i < |evs| && evs[i].FieldUpdate?
    requires evs[i].currency != "" && evs[i].tag != CurrencyKey
    requires forall j :: i < j < |evs| ==> !Writes(evs[j], evs[i].account, CurrencyKey)
    ensures evs[i].account in Run(st, evs).accounts
    ensures CurrencyKey in Run(st, evs).accounts[evs[i].account]
    ensures Run(st, evs).accounts[evs[i].account][CurrencyKey] == S(evs[i].currency)
  {
    var e := evs[i];
    RunSplit(st, evs, i);
    var mid := Apply(Run(st, evs[..i]), e);
    var rest := evs[i + 1..];
    forall j | 0 <= j < |rest| ensures !Writes(rest[j], e.account, CurrencyKey) {
      assert rest[j] == evs[i + 1 + j];
    }
    UnwrittenKeyKept(mid, rest, e.account, CurrencyKey);
  }

  /** An empty currency never replaces a stored one: updates for the account
      that carry no currency, and do not use "currency" as their tag, leave
      its currency as it was. */
  lemma EmptyCurrencyNeverClobbers(st: State, evs: seq<Event>, a: string)
    requires WellFormed(st.accounts) && a in st.accounts
    requires forall j :: 0 <= j < |evs| && evs[j].FieldUpdate? && evs[j].account == a ==>
               evs[j].currency == "" && evs[j].tag != CurrencyKey
    ensures a in Run(st, evs).accounts && CurrencyKey in Run(st, evs).accounts[a]
    ensures Run(st, evs).accounts[a][CurrencyKey] == st.accounts[a][CurrencyKey]
  {
    forall j | 0 <= j < |evs| ensures !Writes(evs[j], a, CurrencyKey) {
      assert TimeKey != CurrencyKey;
    }
    UnwrittenKeyKept(st, evs, a, CurrencyKey);
  }

  /** The completion flag is set after a stream exactly when it was set
      before or the stream holds an end-of-summary callback. */
  lemma {:induction false} DoneIffEnd(st: State, evs: seq<Event>)
    ensures Run(st, evs).done <==> st.done || exists j :: 0 <= j < |evs| && evs[j].SummaryEnd?
    decreases |evs|
  {
    if evs != [] {
      var st' := Apply(st, evs[0]);
      DoneIffEnd(st', evs[1..]);
      if exists j :: 0 <= j < |evs[1..]| && evs[1..][j].SummaryEnd? {
        var j :| 0 <= j < |evs[1..]| && evs[1..][j].SummaryEnd?;
        assert evs[j + 1].SummaryEnd?;
      }
      if exists j :: 0 <= j < |evs| && evs[j].SummaryEnd? {
        var j :| 0 <= j < |evs| && evs[j].SummaryEnd?;
        if j > 0 { assert evs[1..][j - 1].SummaryEnd?; }
      }
    }
  }

  /** A stream without a server-time callback leaves the stored time as it was. */
  lemma {:induction false} LastServerTimeKept(st: State, evs: seq<Event>)
    requires forall j :: 0 <= j < |evs| ==> !evs[j].ServerTime?
    ensures Run(st, evs).currentTime == st.currentTime
    decreases |evs|
  {
    if evs != [] {
      forall j | 0 <= j < |evs[1..]| ensures !evs[1..][j].ServerTime? {
        assert evs[1..][j] == evs[j + 1];
      }
      LastServerTimeKept(Apply(st, evs[0]), evs[1..]);
    }
  }

  /** At completion every record carries the same time: the server time
      reported last before the end of the summary. */
  lemma CompletionStampsLastServerTime(st: State, pre: seq<Event>, i: nat, r: int)
    requires i < |pre| && pre[i].ServerTime?
    requires forall j :: i < j < |pre| ==> !pre[j].ServerTime?
    ensures Run(st, pre + [SummaryEnd(r)]).done
    ensures forall a :: a in Run(st, pre + [SummaryEnd(r)]).accounts ==>
              TimeKey in Run(st, pre + [SummaryEnd(r)]).accounts[a] &&
              Run(st, pre + [SummaryEnd(r)]).accounts[a][TimeKey] == I(pre[i].time)
  {
    RunSplit(st, pre, i);
    var rest := pre[i + 1..];
    forall j | 0 <= j < |rest| ensures !rest[j].ServerTime? {
      assert rest[j] == pre[i + 1 + j];
    }
    LastServerTimeKept(Apply(Run(st, pre[..i]), pre[i]), rest);
    RunAppend(st, pre, [SummaryEnd(r)]);
    assert Run(Run(st, pre), [SummaryEnd(r)]) == Apply(Run(st, pre), SummaryEnd(r));
  }

  /** At completion every record carries the same time: the server time
      stored when the end of the summary arrives, whether or not a server
      time was reported before it. */
  lemma CompletionStampsCurrentTime(st: State, pre: seq<Event>, r: int)
    ensures Run(st, pre + [SummaryEnd(r)]).done
    ensures forall a :: a in Run(st, pre + [SummaryEnd(r)]).accounts ==>
              TimeKey in Run(st, pre + [SummaryEnd(r)]).accounts[a] &&
              Run(st, pre + [SummaryEnd(r)]).accounts[a][TimeKey] == I(Run(st, pre).currentTime)
  {
    RunAppend(st, pre, [SummaryEnd(r)]);
    assert Run(Run(st, pre), [SummaryEnd(r)]) == Apply(Run(st, pre), SummaryEnd(r));
  }

  /** The server-time request goes out after the account-summary request, so
      the end of the summary can arrive first: every record is then stamped
      with the initial time 0. */
  lemma EndBeforeServerTimeStampsZero(pre: seq<Event>, r: int)
    requires forall j :: 0 <= j < |pre| ==> !pre[j].ServerTime?
    ensures forall a :: a in Run(Initial(), pre + [SummaryEnd(r)]).accounts ==>
              TimeKey in Run(Initial(), pre + [SummaryEnd(r)]).accounts[a] &&
              Run(Initial(), pre + [SummaryEnd(r)]).accounts[a][TimeKey] == I(0)
  {
    LastServerTimeKept(Initial(), pre);
    CompletionStampsCurrentTime(Initial(), pre, r);
  }

  /** Raising the flag again re-stamps every record with the latest server
      time and leaves the flag set; nothing else changes. */
  lemma EndAgainRestamps(st: State, r1: int, x: int, r2: int)
    ensures Apply(Apply(Apply(st, SummaryEnd(r1)), ServerTime(x)), SummaryEnd(r2))
            == Apply(st.(currentTime := x), SummaryEnd(r2))
  {
    StampTwice(st.accounts, st.currentTime, x);
  }

  /** A second stamp overrides the first. */
  lemma StampTwice(accounts: Accounts, t1: int, t2: int)
    ensures Stamp(Stamp(accounts, t1), t2) == Stamp(accounts, t2)
  {
    var once := Stamp(accounts, t1);
    var twice := Stamp(once, t2);
    var direct := Stamp(accounts, t2);
    forall a | a in accounts ensures twice[a] == direct[a] {
      RestampRecord(accounts[a], t1, t2);
    }
  }

  /** On one record, a second time replaces the first. */
  lemma RestampRecord(rec: Record, t1: int, t2: int)
    ensures rec[TimeKey := I(t1)][TimeKey := I(t2)] == rec[TimeKey := I(t2)]
  {
  }

  /** The same callback with its request id replaced by `r`. */
  function WithReqId(e: Event, r: int): (e': Event)
    ensures e'.FieldUpdate? <==> e.FieldUpdate?
    ensures e'.SummaryEnd? <==> e.SummaryEnd?
    ensures !e.FieldUpdate? && !e.SummaryEnd? ==> e' == e
  {
    match e
    case FieldUpdate(_, a, t, v, c) => FieldUpdate(r, a, t, v, c)
    case SummaryEnd(_) => SummaryEnd(r)
    case _ => e
  }

  /** Updates and the end of the summary are not filtered by request id:
      relabelling every callback's request id changes nothing. */
  lemma {:induction false} ReqIdIgnored(st: State, evs: seq<Event>, r: int)
    ensures Run(st, evs) == Run(st, seq(|evs|, j requires 0 <= j < |evs| => WithReqId(evs[j], r)))
    decreases |evs|
  {
    var relabelled := seq(|evs|, j requires 0 <= j < |evs| => WithReqId(evs[j], r));
    if evs != [] {
      assert Apply(st, relabelled[0]) == Apply(st, evs[0]);
      var tail := seq(|evs[1..]|, j requires 0 <= j < |evs[1..]| => WithReqId(evs[1..][j], r));
      assert relabelled[1..] == tail;
      ReqIdIgnored(Apply(st, evs[0]), evs[1..], r);
    }
  }

  /** A stream without a request-id report sends nothing and keeps the id. */
  lemma {:induction false} NoReadyNoRequest(st: State, evs: seq<Event>)
    requires forall j :: 0 <= j < |evs| ==> !evs[j].Ready?
    ensures Run(st, evs).sent == st.sent && Run(st, evs).reqId == st.reqId
    decreases |evs|
  {
    if evs != [] {
      forall j | 0 <= j < |evs[1..]| ensures !evs[1..][j].Ready? {
        assert evs[1..][j] == evs[j + 1];
      }
      NoReadyNoRequest(Apply(st, evs[0]), evs[1..]);
    }
  }

  /** In a session whose only request-id report is `Ready(o)`, exactly two
      requests go out, the account summary under `o` and then the server
      time, and `o` is the request id afterwards. */
  lemma OneSessionTwoRequests(evs: seq<Event>, i: nat)
    requires i < |evs| && evs[i].Ready?
    requires forall j :: 0 <= j < |evs| && j != i ==> !evs[j].Ready?
    ensures Run(Initial(), evs).sent
            == [AccountSummaryReq(evs[i].orderId, AllAccounts, SummaryTags), CurrentTimeReq]
    ensures Run(Initial(), evs).reqId == evs[i].orderId
  {
    RunSplit(Initial(), evs, i);
    forall j | 0 <= j < |evs[..i]| ensures !evs[..i][j].Ready? {
      assert evs[..i][j] == evs[j];
    }
    NoReadyNoRequest(Initial(), evs[..i]);
    var rest := evs[i + 1..];
    forall j | 0 <= j < |rest| ensures !rest[j].Ready? {
      assert rest[j] == evs[i + 1 + j];
    }
    NoReadyNoRequest(Apply(Run(Initial(), evs[..i]), evs[i]), rest);
  }

  /** The requests a stream sends: both requests for each request-id report,
      in the order of the reports. */
  function RequestsOf(evs: seq<Event>): (rs: seq<Req>)
    decreases |evs|
  {
    if evs == [] then []
    else (if evs[0].Ready? then ReadyRequests(evs[0].orderId) else []) + RequestsOf(evs[1..])
  }

  /** Every request-id report re-issues both requests: the log grows by
      exactly the requests of the stream's reports, in order. */
  lemma {:induction false} SentGrowsByRequests(st: State, evs: seq<Event>)
    ensures Run(st, evs).sent == st.sent + RequestsOf(evs)
    decreases |evs|
  {
    if evs != [] {
      var st1 := Apply(st, evs[0]);
      SentGrowsByRequests(st1, evs[1..]);
      var head := if evs[0].Ready? then ReadyRequests(evs[0].orderId) else [];
      assert st1.sent == st.sent + head;
      assert RequestsOf(evs) == head + RequestsOf(evs[1..]);
      assert st.sent + head + RequestsOf(evs[1..]) == st.sent + (head + RequestsOf(evs[1..]));
    }
  }

  /** The request id is the one of the last request-id report. */
  lemma LastReadyIdKept(st: State, evs: seq<Event>, i: nat)
    requires i < |evs| && evs[i].Ready?
    requires forall j :: i < j < |evs| ==> !evs[j].Ready?
    ensures Run(st, evs).reqId == evs[i].orderId
  {
    RunSplit(st, evs, i);
    var rest := evs[i + 1..];
    forall j | 0 <= j < |rest| ensures !rest[j].Ready? {
      assert rest[j] == evs[i + 1 + j];
    }
    NoReadyNoRequest(Apply(Run(st, evs[..i]), evs[i]), rest);
  }

  /** Whether some record carries a time. */
  predicate Stamped(accounts: Accounts)
  {
    exists a :: a in accounts && TimeKey in accounts[a]
  }

  /** Without an end of summary (the wait timed out), no record is stamped
      unless the vendor itself sent a "time" tag, and the flag is unset. */
  lemma {:induction false} PartialWithoutEnd(st: State, evs: seq<Event>)
    requires !st.done && !Stamped(st.accounts)
    requires forall j :: 0 <= j < |evs| ==>
               !evs[j].SummaryEnd? && !(evs[j].FieldUpdate? && evs[j].tag == TimeKey)
    ensures !Run(st, evs).done && !Stamped(Run(st, evs).accounts)
    decreases |evs|
  {
    if evs != [] {
      var st' := Apply(st, evs[0]);
      assert !Stamped(st'.accounts) by {
        if evs[0].FieldUpdate? {
          var e := evs[0];
          forall a | a in st'.accounts ensures TimeKey !in st'.accounts[a] {
            if a != e.account {
              assert st'.accounts[a] == st.accounts[a];
            } else {
              assert CurrencyKey != TimeKey;
            }
          }
        }
      }
      forall j | 0 <= j < |evs[1..]|
        ensures !evs[1..][j].SummaryEnd? && !(evs[1..][j].FieldUpdate? && evs[1..][j].tag == TimeKey)
      {
        assert evs[1..][j] == evs[j + 1];
      }
      PartialWithoutEnd(st', evs[1..]);
    }
  }

  /** The example session: the request id arrives, two fields of account U1
      (the second without a currency), the server time, then the end. */
  lemma ExampleSession()
    ensures Run(Initial(), [
              Ready(1),
              FieldUpdate(1, "U1", "NetLiquidation", "1000.00", "USD"),
              FieldUpdate(1, "U1", "TotalCashValue", "200.00", ""),
              ServerTime(1700000000),
              SummaryEnd(1)])
            == State(
              map["U1" := map["currency" := S("USD"), "NetLiquidation" := S("1000.00"),
                              "TotalCashValue" := S("200.00"), "time" := I(1700000000)]],
              1700000000, 1, true,
              [AccountSummaryReq(1, "All", SummaryTags), CurrentTimeReq])
  {
    var e1, e2, e3, e4, e5 := Ready(1),
      FieldUpdate(1, "U1", "NetLiquidation", "1000.00", "USD"),
      FieldUpdate(1, "U1", "TotalCashValue", "200.00", ""),
      ServerTime(1700000000),
      SummaryEnd(1);
    RunFive(Initial(), e1, e2, e3, e4, e5);
    var s1 := Apply(Initial(), e1);
    var s2 := Apply(s1, e2);
    assert s2.accounts["U1"].Keys == {"currency", "NetLiquidation"};
    assert s2.accounts["U1"]["currency"] == S("USD");
    assert s2.accounts["U1"] == map["currency" := S("USD"), "NetLiquidation" := S("1000.00")];
    assert s2.accounts == map["U1" := map["currency" := S("USD"), "NetLiquidation" := S("1000.00")]];
    var s3 := Apply(s2, e3);
    var u1 := map["currency" := S("USD"), "NetLiquidation" := S("1000.00"), "TotalCashValue" := S("200.00")];
    assert s3.accounts["U1"] == u1;
    assert s3.accounts == map["U1" := u1];
    var s5 := Apply(Apply(s3, e4), e5);
    assert s5.accounts["U1"] == u1["time" := I(1700000000)];
  }

  /** Unfolds a run of five callbacks. */
  lemma RunFive(st: State, e1: Event, e2: Event, e3: Event, e4: Event, e5: Event)
    ensures Run(st, [e1, e2, e3, e4, e5])
            == Apply(Apply(Apply(Apply(Apply(st, e1), e2), e3), e4), e5)
  {
    var s1 := Apply(st, e1);
    var s2 := Apply(s1, e2);
    var s3 := Apply(s2, e3);
    var s4 := Apply(s3, e4);
    RunCons(st, e1, [e2, e3, e4, e5]);
    RunCons(s1, e2, [e3, e4, e5]);
    RunCons(s2, e3, [e4, e5]);
    RunCons(s3, e4, [e5]);
    RunCons(s4, e5, []);
  }

  /** Unfolds the first callback of a run. */
  lemma RunCons(st: State, e: Event, rest: seq<Event>)
    ensures Run(st, [e] + rest) == Run(Apply(st, e), rest)
  {
    assert ([e] + rest)[1..] == rest;
  }

  /** Interleaved updates for two accounts aggregate into two records, each
      holding only its own tags. */
  lemma TwoAccountsIndependent()
    ensures Run(Initial(), [
              FieldUpdate(1, "U1", "NetLiquidation", "1000.00", "USD"),
              FieldUpdate(1, "U2", "NetLiquidation", "50.00", "EUR"),
              FieldUpdate(1, "U1", "AccountType", "INDIVIDUAL", "")]).accounts
            == map["U1" := map["currency" := S("USD"), "NetLiquidation" := S("1000.00"),
                               "AccountType" := S("INDIVIDUAL")],
                   "U2" := map["currency" := S("EUR"), "NetLiquidation" := S("50.00")]]
  {
    var e1, e2, e3 := FieldUpdate(1, "U1", "NetLiquidation", "1000.00", "USD"),
      FieldUpdate(1, "U2", "NetLiquidation", "50.00", "EUR"),
      FieldUpdate(1, "U1", "AccountType", "INDIVIDUAL", "");
    var evs := [e1, e2, e3];
    assert evs[1..] == [e2, e3];
    assert evs[1..][1..] == [e3];
    assert evs[1..][1..][1..] == [];
    var s1 := Apply(Initial(), e1);
    var u1 := map["currency" := S("USD"), "NetLiquidation" := S("1000.00")];
    assert s1.accounts["U1"].Keys == {"currency", "NetLiquidation"};
    assert s1.accounts["U1"]["currency"] == S("USD");
    assert s1.accounts["U1"] == u1;
    assert s1.accounts == map["U1" := u1];
    var s2 := Apply(s1, e2);
    var u2 := map["currency" := S("EUR"), "NetLiquidation" := S("50.00")];
    assert "U1" != "U2";
    assert s2.accounts["U2"].Keys == {"currency", "NetLiquidation"};
    assert s2.accounts["U2"]["currency"] == S("EUR");
    assert s2.accounts["U2"] == u2;
    assert s2.accounts.Keys == {"U1", "U2"};
    assert s2.accounts == map["U1" := u1, "U2" := u2];
    var s3 := Apply(s2, e3);
    assert s3.accounts == map["U1" := u1["AccountType" := S("INDIVIDUAL")], "U2" := u2];
  }

  /** A tag named "currency" is written after the currency rule, so its value
      wins, even an empty one over a stored currency. */
  lemma CurrencyTagOverridesCurrency(st: State, a: string, v: string, c: string, r: int)
    ensures Apply(st, FieldUpdate(r, a, CurrencyKey, v, c)).accounts[a][CurrencyKey] == S(v)
  {
  }

  /** The example session driven through the extractor object, callback by
      callback, as the vendor's receive loop would deliver it. */
  method ExampleSessionOnApp()
  {
    var app := new App();
    app.NextValidId(1);
    app.AccountSummary(1, "U1", "NetLiquidation", "1000.00", "USD");
    app.AccountSummary(1, "U1", "TotalCashValue", "200.00", "");
    app.CurrentTime(1700000000);
    app.AccountSummaryEnd(1);
    ExampleSession();
    RunFive(Initial(), Ready(1), FieldUpdate(1, "U1", "NetLiquidation", "1000.00", "USD"),
      FieldUpdate(1, "U1", "TotalCashValue", "200.00", ""), ServerTime(1700000000), SummaryEnd(1));
    assert app.done && app.sent == [AccountSummaryReq(1, "All", SummaryTags), CurrentTimeReq];
    assert app.accounts["U1"]["time"] == I(1700000000);
  }
}
