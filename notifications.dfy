/**
 * The low-balance alert sweep: every user whose balance is negative and who
 * has a phone number gets one WhatsApp message through the provider, and
 * every attempt is recorded in the append-only notification log.
 *
 * The provider and the log store are foreign: each is given as an oracle.
 * The provider's says whether the k-th message handed to it is delivered;
 * the store's says whether a write of an entry with a given status, made
 * once k messages have been handed to the provider, is stored. The attempts, which the
 * TypeScript code starts together and awaits with `Promise.allSettled`, are
 * made one after another; they are independent, so only their order in the
 * log is a choice of the model.
 */
module Notifications {
  import opened Wrappers
  import opened Money
  import opened Calculations
  import opened Sequences

  datatype Status = Sent | Failed

  datatype NotificationLog = NotificationLog(
    userId: string,
    channel: string,
    message: string,
    phoneNumber: string,
    status: Status,
    sentAt: Option<int>)

  /** A message handed to the provider. */
  datatype Outgoing = Outgoing(to: string, body: string)

  /** How the promise of one attempt settled. */
  datatype Settled = Fulfilled(value: bool) | Rejected

  datatype AlertSummary = AlertSummary(successful: nat, failed: nat, total: nat)

  const Channel := "WHATSAPP"
  const Greeting := "Hi "
  const BalanceLead := ", your current balance is $"
  const MessageTail := ". Please contribute to the meal system."

  /** The text of an alert; the same in the success and in the failure branch. */
  function AlertMessage(name: string, balance: real): string
  {
    Greeting + name + BalanceLead + ToFixed2(balance) + MessageTail
  }

  /** The provider address of a phone number. */
  function WhatsAppAddress(phone: string): string
  {
    "whatsapp:" + phone
  }

  // ---- reading an alert text back ----

  /** The position of the last occurrence of c in s. */
  function LastIndexOf(s: string, c: char): (r: Option<nat>)
    ensures r.Some? ==> r.value < |s| && s[r.value] == c && forall j :: r.value < j < |s| ==> s[j] != c
    ensures r.None? ==> forall j :: 0 <= j < |s| ==> s[j] != c
  {
    if |s| == 0 then None
    else if s[|s| - 1] == c then Some(|s| - 1)
    else LastIndexOf(s[..|s| - 1], c)
  }

  /** The amount quoted in an alert text: what stands between the last '$' and the fixed ending. */
  function QuotedAmount(msg: string): Option<string>
  {
    if |msg| >= |MessageTail| && msg[|msg| - |MessageTail|..] == MessageTail then
      var body := msg[..|msg| - |MessageTail|];
      match LastIndexOf(body, '$')
      case Some(k) => Some(body[k + 1..])
      case None => None
    else None
  }

  lemma FixedTextHasNoDollar(x: real)
    ensures forall j :: 0 <= j < |ToFixed2(x)| ==> ToFixed2(x)[j] != '$'
  {
    var y := if x < 0.0 then -x else x;
    var n := MathRound(y * 100.0);
    DecimalRoundTrip(n / 100);
  }

  /** The alert quotes exactly the toFixed(2) text of the balance, whatever the name holds. */
  lemma {:induction false} QuotedAmountOfAlert(name: string, balance: real)
    ensures QuotedAmount(AlertMessage(name, balance)) == Some(ToFixed2(balance))
  {
    var head := Greeting + name + BalanceLead;
    var amount := ToFixed2(balance);
    var msg := AlertMessage(name, balance);
    assert msg == head + amount + MessageTail;
    assert msg[|msg| - |MessageTail|..] == MessageTail;
    var body := msg[..|msg| - |MessageTail|];
    assert body == head + amount;
    FixedTextHasNoDollar(balance);
    assert body[|head| - 1] == '$';
    var r := LastIndexOf(body, '$');
    assert r.Some?;
    assert r.value == |head| - 1;
    assert body[|head|..] == amount;
  }

  /** A whole-cent balance (as every computed balance is) is quoted to the cent. */
  lemma AlertQuotesBalance(name: string, balance: real)
    requires IsCents(balance)
    ensures QuotedAmount(AlertMessage(name, balance)).Some?
    ensures ParseFixed2(QuotedAmount(AlertMessage(name, balance)).value) == Some((balance * 100.0).Floor)
  {
    QuotedAmountOfAlert(name, balance);
    ToFixed2OfCents(balance);
  }

  // ---- who is alerted ----

  /** `user.balance < 0 && user.userPhone`: a negative balance and a non-empty phone number. */
  predicate Qualifies(b: UserBalance)
  {
    b.balance < 0.0 && b.userPhone.Some? && b.userPhone.value != ""
  }

  /** The balances that get an alert, in their original order. */
  function Recipients(bs: seq<UserBalance>): (rs: seq<UserBalance>)
    ensures forall b :: b in rs <==> b in bs && Qualifies(b)
    ensures forall i :: 0 <= i < |rs| ==> Qualifies(rs[i])
  {
    if |bs| == 0 then []
    else
      var init, last := bs[..|bs| - 1], bs[|bs| - 1];
      assert bs == init + [last];
      var rest := Recipients(init);
      if Qualifies(last) then rest + [last] else rest
  }

  /** Each qualifying balance appears among the recipients as often as among the balances; no other does. */
  lemma {:induction false} RecipientsCount(bs: seq<UserBalance>)
    ensures forall b :: multiset(Recipients(bs))[b] == if Qualifies(b) then multiset(bs)[b] else 0
  {
    if |bs| > 0 {
      var init, last := bs[..|bs| - 1], bs[|bs| - 1];
      RecipientsCount(init);
      assert bs == init + [last];
    }
  }

  /** The recipients keep the order the balances came in. */
  lemma {:induction false} RecipientsKeepOrder(bs: seq<UserBalance>)
    ensures IsSubsequence(Recipients(bs), bs)
  {
    if |bs| > 0 {
      var init, last := bs[..|bs| - 1], bs[|bs| - 1];
      RecipientsKeepOrder(init);
      assert bs == init + [last];
      if Qualifies(last) {
        SubsequenceBothLonger(Recipients(init), init, last);
      } else {
        SubsequenceOfLonger(Recipients(init), init, last);
      }
    }
  }

  /** A balance of -0.01 with a phone is alerted; a zero balance or a missing phone is not. */
  lemma FilterBoundaries(b: UserBalance, phone: string)
    requires phone != ""
    ensures Qualifies(b.(balance := -0.01, userPhone := Some(phone)))
    ensures !Qualifies(b.(balance := 0.0))
    ensures !Qualifies(b.(userPhone := None))
    ensures !Qualifies(b.(userPhone := Some("")))
  {
  }

  function PhoneOf(b: UserBalance): string
  {
    if b.userPhone.Some? then b.userPhone.value else ""
  }

  /** The provider request made for one recipient. */
  function Request(b: UserBalance): Outgoing
  {
    Outgoing(WhatsAppAddress(PhoneOf(b)), AlertMessage(b.userName, b.balance))
  }

  /** One provider request per recipient, in order. */
  function Requests(rs: seq<UserBalance>): seq<Outgoing>
  {
    seq(|rs|, i requires 0 <= i < |rs| => Request(rs[i]))
  }

  lemma RequestsStep(rs: seq<UserBalance>, i: nat)
    requires i < |rs|
    ensures Requests(rs[..i + 1]) == Requests(rs[..i]) + [Request(rs[i])]
  {
  }

  // ---- one attempt ----

  function SentEntry(userId: string, name: string, balance: real, phone: string, now: int): NotificationLog
  {
    NotificationLog(userId, Channel, AlertMessage(name, balance), phone, Sent, Some(now))
  }

  function FailedEntry(userId: string, name: string, balance: real, phone: string): NotificationLog
  {
    NotificationLog(userId, Channel, AlertMessage(name, balance), phone, Failed, None)
  }

  /** What one attempt yields: how its promise settles and what it appends to the log. */
  datatype AttemptEffect = AttemptEffect(outcome: Settled, appended: seq<NotificationLog>)

  /**
   * The try/catch of `sendWhatsAppAlert`, given whether the provider delivered
   * and whether the store keeps the SENT and the FAILED entry. A failed send,
   * or a failed SENT write, lands in the catch block, which writes a FAILED
   * entry and resolves with false; if that write fails too, the promise
   * rejects.
   */
  function Attempt(delivered: bool, sentStored: bool, failedStored: bool, sent: NotificationLog, failed: NotificationLog): AttemptEffect
  {
    if delivered && sentStored then AttemptEffect(Fulfilled(true), [sent])
    else if failedStored then AttemptEffect(Fulfilled(false), [failed])
    else AttemptEffect(Rejected, [])
  }

  /**
   * The cases of one attempt: `true` exactly when the message was delivered
   * and its SENT entry stored; `false`, with the FAILED entry stored, when
   * the catch block's write is accepted; a rejection, with nothing stored,
   * when that write is refused too.
   */
  lemma AttemptCases(delivered: bool, sentStored: bool, failedStored: bool, sent: NotificationLog, failed: NotificationLog)
    ensures var e := Attempt(delivered, sentStored, failedStored, sent, failed);
      && (e.outcome == Fulfilled(true) <==> delivered && sentStored)
      && (e.outcome == Fulfilled(false) <==> !(delivered && sentStored) && failedStored)
      && (e.outcome.Rejected? <==> !(delivered && sentStored) && !failedStored)
      && (e.outcome == Fulfilled(true) ==> e.appended == [sent])
      && (e.outcome == Fulfilled(false) ==> e.appended == [failed])
      && (e.outcome.Rejected? ==> e.appended == [])
  {
  }

  /** An undelivered message whose FAILED entry is stored resolves with false: a fulfilled promise. */
  lemma UndeliveredIsFulfilled(sentStored: bool, sent: NotificationLog, failed: NotificationLog)
    ensures Attempt(false, sentStored, true, sent, failed).outcome == Fulfilled(false)
  {
  }

  // ---- counting the settled promises ----

  /** `results.filter(r => r.status === 'fulfilled').length`. */
  function CountFulfilled(results: seq<Settled>): nat
  {
    if |results| == 0 then 0
    else CountFulfilled(results[..|results| - 1]) + if results[|results| - 1].Fulfilled? then 1 else 0
  }

  lemma CountFulfilledAppend(results: seq<Settled>, r: Settled)
    ensures CountFulfilled(results + [r]) == CountFulfilled(results) + if r.Fulfilled? then 1 else 0
  {
    assert (results + [r])[..|results|] == results;
  }

  /** `results.filter(r => r.status === 'rejected').length`. */
  function CountRejected(results: seq<Settled>): (n: nat)
    ensures n + CountFulfilled(results) == |results|
  {
    if |results| == 0 then 0
    else CountRejected(results[..|results| - 1]) + if results[|results| - 1].Rejected? then 1 else 0
  }

  /** The two counts are the multiplicities of the fulfilled and of the rejected outcomes. */
  lemma {:induction false} CountsAreMultiplicities(results: seq<Settled>)
    ensures CountFulfilled(results) == multiset(results)[Fulfilled(true)] + multiset(results)[Fulfilled(false)]
    ensures CountRejected(results) == multiset(results)[Rejected]
  {
    if |results| > 0 {
      var init, last := results[..|results| - 1], results[|results| - 1];
      CountsAreMultiplicities(init);
      assert results == init + [last];
    }
  }

  /** `{successful, failed, total}`: fulfilled promises (whatever their value), rejected ones, all. */
  function Summarize(results: seq<Settled>): (s: AlertSummary)
    ensures s.total == |results|
    ensures s.successful + s.failed == s.total
  {
    AlertSummary(CountFulfilled(results), CountRejected(results), |results|)
  }

  /** With no rejected promise nothing is `failed`, even when every delivery failed. */
  lemma {:induction false} NoRejectionNoFailed(results: seq<Settled>)
    requires forall i :: 0 <= i < |results| ==> results[i].Fulfilled?
    ensures Summarize(results).failed == 0
    ensures Summarize(results).successful == |results|
  {
    if |results| > 0 {
      NoRejectionNoFailed(results[..|results| - 1]);
    }
  }

  /** A single alert whose delivery fails but whose FAILED entry is stored is summarized as one success and no failure. */
  lemma ProviderFailureCountsAsSuccessful(sentStored: bool, sent: NotificationLog, failed: NotificationLog)
    ensures Summarize([Attempt(false, sentStored, true, sent, failed).outcome]) == AlertSummary(1, 0, 1)
  {
    var results := [Attempt(false, sentStored, true, sent, failed).outcome];
    assert results[..0] == [];
  }

  /** A log entry as an attempt at time `now` writes it. */
  ghost predicate Stamped(e: NotificationLog, now: int)
  {
    e.channel == Channel && (e.status == Sent <==> e.sentAt == Some(now)) && (e.status == Failed <==> e.sentAt == None)
  }

  // ---- the attempts for all recipients ----

  /**
   * The attempt for recipient b whose message is the provider's m-th: its
   * log writes are made once m + 1 messages have been handed over.
   */
  function AttemptFor(b: UserBalance, m: nat, delivers: nat -> bool, accepts: (nat, Status) -> bool, now: int): AttemptEffect
  {
    Attempt(delivers(m), accepts(m + 1, Sent), accepts(m + 1, Failed),
            SentEntry(b.userId, b.userName, b.balance, PhoneOf(b), now),
            FailedEntry(b.userId, b.userName, b.balance, PhoneOf(b)))
  }

  /** The attempts for a list of recipients, recipient i's message being the provider's (m + i)-th. */
  function Effects(rs: seq<UserBalance>, m: nat, delivers: nat -> bool, accepts: (nat, Status) -> bool, now: int): (es: seq<AttemptEffect>)
    ensures |es| == |rs|
  {
    seq(|rs|, i requires 0 <= i < |rs| => AttemptFor(rs[i], m + i, delivers, accepts, now))
  }

  lemma EffectsStep(rs: seq<UserBalance>, i: nat, m: nat, delivers: nat -> bool, accepts: (nat, Status) -> bool, now: int)
    requires i < |rs|
    ensures Effects(rs[..i + 1], m, delivers, accepts, now) == Effects(rs[..i], m, delivers, accepts, now) + [AttemptFor(rs[i], m + i, delivers, accepts, now)]
  {
  }

  /** How a run of attempts settles, one outcome per attempt. */
  function Outcomes(es: seq<AttemptEffect>): (os: seq<Settled>)
    ensures |os| == |es|
  {
    seq(|es|, i requires 0 <= i < |es| => es[i].outcome)
  }

  lemma OutcomesAppend(es: seq<AttemptEffect>, e: AttemptEffect)
    ensures Outcomes(es + [e]) == Outcomes(es) + [e.outcome]
  {
  }

  /** What a run of attempts appends to the log, one after another. */
  function Logged(es: seq<AttemptEffect>): seq<NotificationLog>
  {
    if |es| == 0 then [] else Logged(es[..|es| - 1]) + es[|es| - 1].appended
  }

  lemma LoggedAppend(es: seq<AttemptEffect>, e: AttemptEffect)
    ensures Logged(es + [e]) == Logged(es) + e.appended
  {
    assert (es + [e])[..|es|] == es;
  }

  /** An attempt appends one entry when its promise fulfils and none when it rejects. */
  predicate AppendsWhenFulfilled(e: AttemptEffect)
  {
    |e.appended| == if e.outcome.Fulfilled? then 1 else 0
  }

  /** Attempts that each append one entry per fulfilled promise append as many as there are fulfilled promises. */
  lemma {:induction false} LoggedCount(es: seq<AttemptEffect>)
    requires forall i :: 0 <= i < |es| ==> AppendsWhenFulfilled(es[i])
    ensures |Logged(es)| == CountFulfilled(Outcomes(es))
  {
    if |es| > 0 {
      var init, last := es[..|es| - 1], es[|es| - 1];
      LoggedCount(init);
      assert es == init + [last];
      OutcomesAppend(init, last);
      LoggedAppend(init, last);
      CountFulfilledAppend(Outcomes(init), last.outcome);
    }
  }

  /** Every entry of the run comes from one of its attempts. */
  lemma {:induction false} LoggedFrom(es: seq<AttemptEffect>)
    ensures forall j :: 0 <= j < |Logged(es)| ==> exists i :: 0 <= i < |es| && Logged(es)[j] in es[i].appended
  {
    if |es| > 0 {
      var init, last := es[..|es| - 1], es[|es| - 1];
      LoggedFrom(init);
      var l := Logged(es);
      assert l == Logged(init) + last.appended;
      forall j | 0 <= j < |l| ensures exists i :: 0 <= i < |es| && l[j] in es[i].appended {
        if j < |Logged(init)| {
          assert l[j] == Logged(init)[j];
          var i :| 0 <= i < |init| && Logged(init)[j] in init[i].appended;
          assert es[i] == init[i];
        } else {
          assert es[|es| - 1] == last;
          assert l[j] == last.appended[j - |Logged(init)|];
        }
      }
    } else {
      assert Logged(es) == [];
    }
  }

  /** Attempts that each append exactly one entry append those entries, in order. */
  lemma {:induction false} LoggedOnePerAttempt(es: seq<AttemptEffect>)
    requires forall i :: 0 <= i < |es| ==> |es[i].appended| == 1
    ensures |Logged(es)| == |es|
    ensures forall i :: 0 <= i < |es| ==> Logged(es)[i] == es[i].appended[0]
  {
    if |es| > 0 {
      var init, last := es[..|es| - 1], es[|es| - 1];
      LoggedOnePerAttempt(init);
      var l := Logged(es);
      assert l == Logged(init) + last.appended;
      forall i | 0 <= i < |es| ensures l[i] == es[i].appended[0] {
        if i < |init| {
          assert es[i] == init[i];
        }
      }
    }
  }

  /** The log entry an attempt for b may write. */
  predicate EntryFor(e: NotificationLog, b: UserBalance, now: int)
  {
    e == SentEntry(b.userId, b.userName, b.balance, PhoneOf(b), now) || e == FailedEntry(b.userId, b.userName, b.balance, PhoneOf(b))
  }

  /** An attempt appends one entry exactly when its promise fulfils: b's own entry, stamped at `now`. */
  lemma AttemptForAppends(b: UserBalance, k: nat, delivers: nat -> bool, accepts: (nat, Status) -> bool, now: int)
    ensures var e := AttemptFor(b, k, delivers, accepts, now);
      && AppendsWhenFulfilled(e)
      && forall j :: 0 <= j < |e.appended| ==> EntryFor(e.appended[j], b, now) && Stamped(e.appended[j], now)
  {
    var sent := SentEntry(b.userId, b.userName, b.balance, PhoneOf(b), now);
    var failed := FailedEntry(b.userId, b.userName, b.balance, PhoneOf(b));
    AttemptCases(delivers(k), accepts(k + 1, Sent), accepts(k + 1, Failed), sent, failed);
    assert Stamped(sent, now) && Stamped(failed, now);
  }

  /** An entry an attempt for b appends is b's own entry, stamped at `now`. */
  lemma EntryOfAttempt(b: UserBalance, k: nat, delivers: nat -> bool, accepts: (nat, Status) -> bool, now: int, x: NotificationLog)
    requires x in AttemptFor(b, k, delivers, accepts, now).appended
    ensures EntryFor(x, b, now) && Stamped(x, now)
  {
    AttemptForAppends(b, k, delivers, accepts, now);
    var e := AttemptFor(b, k, delivers, accepts, now);
    var j :| 0 <= j < |e.appended| && e.appended[j] == x;
  }

  /** The alert sweep appends one entry per fulfilled promise. */
  lemma SweepCount(rs: seq<UserBalance>, m: nat, delivers: nat -> bool, accepts: (nat, Status) -> bool, now: int)
    ensures var es := Effects(rs, m, delivers, accepts, now);
      |Logged(es)| == CountFulfilled(Outcomes(es))
  {
    var es := Effects(rs, m, delivers, accepts, now);
    forall i | 0 <= i < |es| ensures AppendsWhenFulfilled(es[i]) {
      AttemptForAppends(rs[i], m + i, delivers, accepts, now);
    }
    LoggedCount(es);
  }

  /** Entry j of the alert sweep's log is one recipient's SENT or FAILED entry, stamped at `now`. */
  lemma SweepEntry(rs: seq<UserBalance>, m: nat, delivers: nat -> bool, accepts: (nat, Status) -> bool, now: int, j: nat)
    requires j < |Logged(Effects(rs, m, delivers, accepts, now))|
    ensures var x := Logged(Effects(rs, m, delivers, accepts, now))[j];
      Stamped(x, now) && exists i :: 0 <= i < |rs| && EntryFor(x, rs[i], now)
  {
    var es := Effects(rs, m, delivers, accepts, now);
    LoggedFrom(es);
    var i :| 0 <= i < |es| && Logged(es)[j] in es[i].appended;
    EntryOfAttempt(rs[i], m + i, delivers, accepts, now, Logged(es)[j]);
  }

  /**
   * Every entry the alert sweep appends is the SENT or the FAILED entry of
   * one of the recipients, stamped as written at time `now`.
   */
  lemma SweepEntries(rs: seq<UserBalance>, m: nat, delivers: nat -> bool, accepts: (nat, Status) -> bool, now: int)
    ensures var l := Logged(Effects(rs, m, delivers, accepts, now));
      forall j :: 0 <= j < |l| ==> Stamped(l[j], now) && exists i :: 0 <= i < |rs| && EntryFor(l[j], rs[i], now)
  {
    var l := Logged(Effects(rs, m, delivers, accepts, now));
    forall j | 0 <= j < |l| ensures Stamped(l[j], now) && exists i :: 0 <= i < |rs| && EntryFor(l[j], rs[i], now) {
      SweepEntry(rs, m, delivers, accepts, now, j);
    }
  }

  /** The entry a recipient's attempt stores when every write is accepted. */
  function ReliableEntry(b: UserBalance, delivered: bool, now: int): NotificationLog
  {
    if delivered then SentEntry(b.userId, b.userName, b.balance, PhoneOf(b), now)
    else FailedEntry(b.userId, b.userName, b.balance, PhoneOf(b))
  }

  /**
   * With a log store that accepts every write, each recipient's promise
   * fulfils with the provider's verdict and appends exactly its own entry:
   * SENT when delivered, FAILED otherwise.
   */
  lemma SweepReliable(rs: seq<UserBalance>, m: nat, delivers: nat -> bool, accepts: (nat, Status) -> bool, now: int)
    requires forall k, s :: accepts(k, s)
    ensures var es := Effects(rs, m, delivers, accepts, now);
      && (forall i :: 0 <= i < |rs| ==> Outcomes(es)[i] == Fulfilled(delivers(m + i)))
      && |Logged(es)| == |rs|
      && (forall i :: 0 <= i < |rs| ==> Logged(es)[i] == ReliableEntry(rs[i], delivers(m + i), now))
  {
    var es := Effects(rs, m, delivers, accepts, now);
    forall i | 0 <= i < |rs| ensures es[i].outcome == Fulfilled(delivers(m + i)) && es[i].appended == [ReliableEntry(rs[i], delivers(m + i), now)] {
      var b := rs[i];
      AttemptCases(delivers(m + i), accepts(m + i + 1, Sent), accepts(m + i + 1, Failed),
                   SentEntry(b.userId, b.userName, b.balance, PhoneOf(b), now),
                   FailedEntry(b.userId, b.userName, b.balance, PhoneOf(b)));
    }
    LoggedOnePerAttempt(es);
  }

  class AlertDispatcher {
    /** The notification log; entries are only ever appended. */
    var log: seq<NotificationLog>
    /** The messages handed to the provider, in order. */
    var requests: seq<Outgoing>
    /** Whether the provider delivers the k-th message handed to it. */
    const delivers: nat -> bool
    /** Whether the store keeps an entry of the given status written once k messages have been handed over. */
    const accepts: (nat, Status) -> bool
    /** The time `new Date()` reads. */
    const now: int

    constructor (delivers: nat -> bool, accepts: (nat, Status) -> bool, now: int)
      ensures log == [] && requests == []
      ensures this.delivers == delivers && this.accepts == accepts && this.now == now
    {
      log, requests := [], [];
      this.delivers, this.accepts, this.now := delivers, accepts, now;
    }

    /** `notificationLog.create`: the entry is appended if the store accepts the write. */
    method CreateLog(entry: NotificationLog) returns (ok: bool)
      modifies this
      ensures ok == accepts(|requests|, entry.status)
      ensures log == if ok then old(log) + [entry] else old(log)
      ensures requests == old(requests)
    {
      ok := accepts(|requests|, entry.status);
      if ok {
        log := log + [entry];
      }
    }

    /** `client.messages.create`: the message is handed over; the provider delivers it or throws. */
    method SendMessage(m: Outgoing) returns (ok: bool)
      modifies this
      ensures ok == delivers(|old(requests)|)
      ensures requests == old(requests) + [m]
      ensures log == old(log)
    {
      ok := delivers(|requests|);
      requests := requests + [m];
    }

    /** `sendWhatsAppAlert`: one delivery attempt and its log entry. */
    method SendWhatsAppAlert(userId: string, name: string, balance: real, phoneNumber: string) returns (outcome: Settled)
      modifies this
      ensures requests == old(requests) + [Outgoing(WhatsAppAddress(phoneNumber), AlertMessage(name, balance))]
      ensures var k := |old(requests)|;
        var e := Attempt(delivers(k), accepts(k + 1, Sent), accepts(k + 1, Failed),
                         SentEntry(userId, name, balance, phoneNumber, now),
                         FailedEntry(userId, name, balance, phoneNumber));
        outcome == e.outcome && log == old(log) + e.appended
    {
      var message := AlertMessage(name, balance);
      var delivered := SendMessage(Outgoing(WhatsAppAddress(phoneNumber), message));
      var logged := false;
      if delivered {
        logged := CreateLog(NotificationLog(userId, Channel, message, phoneNumber, Sent, Some(now)));
      }
      if logged {
        outcome := Fulfilled(true);
      } else {
        // the catch block
        var loggedFailure := CreateLog(NotificationLog(userId, Channel, AlertMessage(name, balance), phoneNumber, Failed, None));
        outcome := if loggedFailure then Fulfilled(false) else Rejected;
      }
    }

    /** The attempt for recipient i, whose message is the provider's (p + i)-th. */
    method AlertNext(recipients: seq<UserBalance>, i: nat, ghost p: nat) returns (outcome: Settled)
      requires i < |recipients| && |requests| == p + i
      modifies this
      ensures var e := AttemptFor(recipients[i], p + i, delivers, accepts, now);
        outcome == e.outcome && log == old(log) + e.appended
      ensures requests == old(requests) + [Request(recipients[i])]
    {
      var r := recipients[i];
      outcome := SendWhatsAppAlert(r.userId, r.userName, r.balance, PhoneOf(r));
    }

    /** Alerts each recipient once, in order; the settled outcome of each attempt is returned. */
    method AlertAll(recipients: seq<UserBalance>) returns (results: seq<Settled>)
      modifies this
      ensures var es := Effects(recipients, |old(requests)|, delivers, accepts, now);
        results == Outcomes(es) && log == old(log) + Logged(es)
      ensures requests == old(requests) + Requests(recipients)
    {
      results := [];
      ghost var p, log0, requests0 := |requests|, log, requests;
      for i := 0 to |recipients|
        invariant var es := Effects(recipients[..i], p, delivers, accepts, now);
          results == Outcomes(es) && log == log0 + Logged(es)
        invariant requests == requests0 + Requests(recipients[..i])
      {
        RequestsStep(recipients, i);
        EffectsStep(recipients, i, p, delivers, accepts, now);
        ghost var es := Effects(recipients[..i], p, delivers, accepts, now);
        ghost var e := AttemptFor(recipients[i], p + i, delivers, accepts, now);
        OutcomesAppend(es, e);
        LoggedAppend(es, e);
        var outcome := AlertNext(recipients, i, p);
        AppendAssociative(log0, Logged(es), e.appended);
        results := results + [outcome];
      }
      assert recipients[..|recipients|] == recipients;
    }

    /** `checkAndSendAlerts`: compute the balances, alert every recipient once, count the outcomes. */
    method CheckAndSendAlerts(users: seq<UserRecords>) returns (summary: AlertSummary)
      modifies this
      ensures var rs := Recipients(Balances(users));
        var es := Effects(rs, |old(requests)|, delivers, accepts, now);
        && requests == old(requests) + Requests(rs)
        && summary == Summarize(Outcomes(es))
        && log == old(log) + Logged(es)
      ensures summary.total == |Recipients(Balances(users))|
      ensures summary.successful + summary.failed == summary.total
      ensures |log| == |old(log)| + summary.successful && log[..|old(log)|] == old(log)
      ensures forall j :: |old(log)| <= j < |log| ==> Stamped(log[j], now)
      ensures (forall k, s :: accepts(k, s)) ==> summary.failed == 0 && summary.successful == summary.total
    {
      var balances := CalculateUserBalances(users);
      var recipients := Recipients(balances);
      ghost var p := |requests|;
      var results := AlertAll(recipients);
      summary := Summarize(results);
      SweepCount(recipients, p, delivers, accepts, now);
      SweepEntries(recipients, p, delivers, accepts, now);
      if forall k, s :: accepts(k, s) {
        SweepReliable(recipients, p, delivers, accepts, now);
        NoRejectionNoFailed(results);
      }
    }
  }
}
