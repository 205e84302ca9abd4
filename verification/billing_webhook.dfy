/**
 * The Razorpay billing webhook (src/app/api/billing/webhook/route.ts) as a
 * function from a request and the stored records to a reply and the new
 * records. HMAC-SHA256 and JSON parsing are oracles passed in as functions;
 * the server clock is the parameter `now`.
 */
module Webhook {
  import opened Common

  // ---------------------------------------------------------------------
  // Signature check (src/lib/razorpay/verify-webhook.ts)
  // ---------------------------------------------------------------------

  /** The outcome of the signature check, including the exception case. */
  datatype SigCheck = Valid | Invalid | Throws

  /** The number of bytes UTF-8 spends on one character. */
  function Utf8Width(c: char): (n: nat)
    ensures 1 <= n <= 4
    ensures n == 1 <==> c as int < 0x80
  {
    if c as int < 0x80 then 1
    else if c as int < 0x800 then 2
    else if c as int < 0x1_0000 then 3
    else 4
  }

  /** `Buffer.from(s).length`: the length of the UTF-8 encoding of `s`. */
  function Utf8Length(s: string): (n: nat)
    ensures |s| <= n <= 4 * |s|
  {
    if |s| == 0 then 0 else Utf8Width(s[0]) + Utf8Length(s[1..])
  }

  /** The byte length is the character length exactly when every character is ASCII. */
  lemma {:induction false} Utf8LengthAscii(s: string)
    ensures Utf8Length(s) == |s| <==> forall i :: 0 <= i < |s| ==> s[i] as int < 0x80
  {
    if |s| > 0 {
      Utf8LengthAscii(s[1..]);
      assert forall i :: 1 <= i < |s| ==> s[i] == s[1..][i - 1];
      if Utf8Length(s) == |s| {
        assert Utf8Width(s[0]) == 1;
      }
    }
  }

  /** Two strings of one character length can differ in byte length, and two of different character lengths can agree. */
  lemma ByteAndCharLengthsDisagree()
    ensures |"a\U{E9}"| == |"ab"| && Utf8Length("a\U{E9}") == 3 && Utf8Length("ab") == 2
    ensures |"\U{E9}"| != |"ab"| && Utf8Length("\U{E9}") == Utf8Length("ab")
  {
    assert "a\U{E9}"[1..] == "\U{E9}";
    assert "ab"[1..] == "b";
    assert "\U{E9}"[1..] == "";
    assert "b"[1..] == "";
  }

  /**
   * verifyWebhookSignature as written: no secret means false; otherwise the
   * signature's UTF-8 bytes are compared with the hex digest's bytes by
   * `timingSafeEqual`, which throws when the two byte lengths differ.
   * `hmacHex(secret, body)` is the digest.
   */
  function VerifySignature(body: string, signature: string, secret: Option<string>,
                           hmacHex: (string, string) -> string): (r: SigCheck)
    ensures r == Valid <==> Truthy(secret) && signature == hmacHex(secret.value, body)
    ensures r == Throws <==> Truthy(secret) && Utf8Length(signature) != Utf8Length(hmacHex(secret.value, body))
  {
    if !Truthy(secret) then Invalid
    else
      var expected := hmacHex(secret.value, body);
      if Utf8Length(signature) != Utf8Length(expected) then Throws
      else if signature == expected then Valid
      else Invalid
  }

  /** The check as evidently intended: a plain yes or no, never an exception. */
  function VerifySignatureIntended(body: string, signature: string, secret: Option<string>,
                                   hmacHex: (string, string) -> string): (r: SigCheck)
    ensures r != Throws
    ensures r == Valid <==> VerifySignature(body, signature, secret, hmacHex) == Valid
  {
    if Truthy(secret) && signature == hmacHex(secret.value, body) then Valid else Invalid
  }

  // ---------------------------------------------------------------------
  // Events and stored records
  // ---------------------------------------------------------------------

  /** `payload.subscription.entity`; the period bounds are Unix seconds. */
  datatype SubEntity = SubEntity(id: string, status: Option<string>, currentStart: Option<int>, currentEnd: Option<int>)

  /** The payload object; the payment entity is only logged to the console and is left out. */
  datatype Payload = Payload(subscription: Option<SubEntity>)

  /**
   * A parsed event; `eventType` (the `event` field) and `payload` are None
   * when the body does not have them.
   */
  datatype Event = Event(eventType: Option<string>, eventId: Option<string>, id: Option<string>, payload: Option<Payload>)

  /**
   * Firestore refuses a document with an `undefined` field, so the log
   * record can be written only when the event has a type, a payload (else
   * `JSON.stringify` gives `undefined`) and an id `event_id || id`.
   */
  predicate Loggable(ev: Event) {
    ev.eventType.Some? && ev.payload.Some? && (Truthy(ev.eventId) || ev.id.Some?)
  }

  /** The log record of a loggable event. */
  function LogOf(ev: Event, now: int): LogEntry
    requires Loggable(ev)
  {
    LogEntry(ev.eventType.value, if Truthy(ev.eventId) then ev.eventId.value else ev.id.value, now)
  }

  datatype LogEntry = LogEntry(eventType: string, razorpayEventId: string, createdAt: int)

  /** A subscription document; times are milliseconds since the epoch. */
  datatype SubRecord = SubRecord(
    docId: string,
    userId: string,
    razorpaySubscriptionId: string,
    plan: string,
    status: string,
    currentPeriodStart: Option<int>,
    currentPeriodEnd: Option<int>,
    cancelledAt: Option<int>,
    updatedAt: int)

  datatype UserRecord = UserRecord(plan: string, subscriptionId: Option<string>, updatedAt: int)

  /** The three collections the webhook touches. */
  datatype Store = Store(events: seq<LogEntry>, subscriptions: seq<SubRecord>, users: map<string, UserRecord>)

  datatype Reply = MissingSignature | InvalidSignature | DatabaseUnavailable | Acknowledged | ProcessingFailed

  /** The HTTP status of each reply; both acknowledgements are 200. */
  function StatusCode(r: Reply): (code: int)
    ensures code == 200 <==> r == Acknowledged || r == ProcessingFailed
  {
    match r
    case MissingSignature => 400
    case InvalidSignature => 401
    case DatabaseUnavailable => 503
    case Acknowledged => 200
    case ProcessingFailed => 200
  }

  datatype Outcome = Outcome(reply: Reply, store: Store)

  // ---------------------------------------------------------------------
  // Dispatch
  // ---------------------------------------------------------------------

  datatype EventKind = Activation | Termination | PaymentFailed | Unhandled

  function KindOf(eventType: string): (k: EventKind)
    ensures k == Activation <==> eventType in {"subscription.activated", "subscription.charged"}
    ensures k == Termination <==>
      eventType in {"subscription.cancelled", "subscription.completed", "subscription.expired"}
  {
    if eventType == "subscription.activated" || eventType == "subscription.charged" then Activation
    else if eventType == "subscription.cancelled" || eventType == "subscription.completed"
         || eventType == "subscription.expired" then Termination
    else if eventType == "payment.failed" then PaymentFailed
    else Unhandled
  }

  /** `eventType.split(".")[1]` for the three ending events. */
  function Suffix(eventType: string): (r: string)
    ensures KindOf(eventType) == Termination ==> "subscription." + r == eventType
  {
    if eventType == "subscription.cancelled" then "cancelled"
    else if eventType == "subscription.completed" then "completed"
    else "expired"
  }

  /** The first subscription document with the Razorpay id, as `subsSnap.docs[0]`. */
  function FindSub(subs: seq<SubRecord>, razorpayId: string): (r: Option<nat>)
    ensures r.None? <==> forall i :: 0 <= i < |subs| ==> subs[i].razorpaySubscriptionId != razorpayId
    ensures r.Some? ==> r.value < |subs| && subs[r.value].razorpaySubscriptionId == razorpayId
    ensures r.Some? ==> forall i :: 0 <= i < r.value ==> subs[i].razorpaySubscriptionId != razorpayId
  {
    if |subs| == 0 then None
    else if subs[0].razorpaySubscriptionId == razorpayId then Some(0)
    else
      match FindSub(subs[1..], razorpayId)
      case None => None
      case Some(k) => Some(k + 1)
  }

  /** `x ? new Date(x * 1000).toISOString() : null`, kept as milliseconds. */
  function PeriodMs(x: Option<int>): (r: Option<int>)
    ensures r.Some? <==> x.Some? && x.value != 0
    ensures r.Some? ==> r.value == x.value * 1000
  {
    if x.Some? && x.value != 0 then Some(x.value * 1000) else None
  }

  /** The user update: throws when the user document does not exist. */
  function UpdateUser(st: Store, userId: string, plan: string, subscriptionId: Option<string>, now: int): (o: Outcome)
    ensures userId !in st.users ==> o == Outcome(ProcessingFailed, st)
    ensures userId in st.users ==>
      (o.reply == Acknowledged &&
       o.store == st.(users := st.users[userId := UserRecord(plan, subscriptionId, now)]))
  {
    if userId !in st.users then Outcome(ProcessingFailed, st)
    else Outcome(Acknowledged, st.(users := st.users[userId := UserRecord(plan, subscriptionId, now)]))
  }

  /**
   * The two subscription branches: find the first subscription with the
   * entity's id, update its status (and period or `cancelledAt`), then update
   * its user's plan.
   */
  function SubscriptionEvent(ev: Event, st: Store, now: int, activation: bool): (o: Outcome)
    ensures o.store.events == st.events
  {
    if ev.payload.None? then Outcome(ProcessingFailed, st)
    else if ev.payload.value.subscription.None? then Outcome(Acknowledged, st)
    else
      var ent := ev.payload.value.subscription.value;
      match FindSub(st.subscriptions, ent.id)
      case None => Outcome(Acknowledged, st)
      case Some(k) =>
        var sub := st.subscriptions[k];
        if activation then
          var updated := sub.(status := OrElse(ent.status, "active"),
                              currentPeriodStart := PeriodMs(ent.currentStart),
                              currentPeriodEnd := PeriodMs(ent.currentEnd),
                              updatedAt := now);
          UpdateUser(st.(subscriptions := st.subscriptions[k := updated]), sub.userId, sub.plan, Some(sub.docId), now)
        else
          var updated := sub.(status := OrElse(ent.status, Suffix(ev.eventType.GetOr(""))),
                              cancelledAt := if ev.eventType == Some("subscription.cancelled") then Some(now) else None,
                              updatedAt := now);
          UpdateUser(st.(subscriptions := st.subscriptions[k := updated]), sub.userId, "free", None, now)
  }

  /** The kind of an event; a missing type falls to the `default` branch. */
  function Kind(ev: Event): EventKind {
    KindOf(ev.eventType.GetOr(""))
  }

  /** The switch on the event type, applied to records that already hold the log entry. */
  function Dispatch(ev: Event, st: Store, now: int): (o: Outcome)
    ensures o.store.events == st.events
    ensures Kind(ev) in {PaymentFailed, Unhandled} ==> o.store == st
  {
    match Kind(ev)
    case Unhandled => Outcome(Acknowledged, st)
    case PaymentFailed => if ev.payload.None? then Outcome(ProcessingFailed, st) else Outcome(Acknowledged, st)
    case Activation => SubscriptionEvent(ev, st, now, true)
    case Termination => SubscriptionEvent(ev, st, now, false)
  }

  /**
   * The POST handler. `verify(body, signature)` is the signature check and
   * `parse(body)` is `JSON.parse`, None when it throws. When the log record
   * would carry an `undefined` field, Firestore refuses it by throwing and
   * nothing is logged.
   */
  function HandleWebhook(body: string, signature: Option<string>,
                         verify: (string, string) -> SigCheck, parse: string -> Option<Event>,
                         dbAvailable: bool, st: Store, now: int): (o: Outcome)
    ensures !Truthy(signature) ==> o == Outcome(MissingSignature, st)
    ensures Truthy(signature) && verify(body, signature.value) == Invalid ==> o == Outcome(InvalidSignature, st)
    ensures Truthy(signature) && verify(body, signature.value) == Throws ==> o == Outcome(ProcessingFailed, st)
    ensures Truthy(signature) && verify(body, signature.value) == Valid ==> StatusCode(o.reply) in {200, 503}
    ensures Truthy(signature) && verify(body, signature.value) == Valid && parse(body).None? ==>
      o == Outcome(ProcessingFailed, st)
    ensures Truthy(signature) && verify(body, signature.value) == Valid && parse(body).Some? && !dbAvailable ==>
      o == Outcome(DatabaseUnavailable, st)
    ensures Truthy(signature) && verify(body, signature.value) == Valid && parse(body).Some? && dbAvailable ==>
      (o.store.events != st.events <==> Loggable(parse(body).value))
    ensures (Truthy(signature) && verify(body, signature.value) == Valid && parse(body).Some? && dbAvailable
             && !Loggable(parse(body).value)) ==> o == Outcome(ProcessingFailed, st)
    ensures o.store.subscriptions != st.subscriptions || o.store.users != st.users ==>
      |o.store.events| == |st.events| + 1
  {
    if !Truthy(signature) then Outcome(MissingSignature, st)
    else
      match verify(body, signature.value)
      case Throws => Outcome(ProcessingFailed, st)
      case Invalid => Outcome(InvalidSignature, st)
      case Valid =>
        match parse(body)
        case None => Outcome(ProcessingFailed, st)
        case Some(ev) =>
          if !dbAvailable then Outcome(DatabaseUnavailable, st)
          else
            if !Loggable(ev) then Outcome(ProcessingFailed, st)
            else Dispatch(ev, st.(events := st.events + [LogOf(ev, now)]), now)
  }

  /** The webhook wired to the signature check as written. */
  function AsWrittenVerifier(secret: Option<string>, hmacHex: (string, string) -> string): (string, string) -> SigCheck {
    (b: string, s: string) => VerifySignature(b, s, secret, hmacHex)
  }

  /** The webhook wired to the signature check as intended. */
  function IntendedVerifier(secret: Option<string>, hmacHex: (string, string) -> string): (string, string) -> SigCheck {
    (b: string, s: string) => VerifySignatureIntended(b, s, secret, hmacHex)
  }

  /**
   * As written, a forged signature of the wrong length is answered 200
   * ("Processing failed") instead of 401.
   */
  lemma WrongLengthSignatureAnswered200(body: string, sig: string, secret: Option<string>,
                                        hmacHex: (string, string) -> string, parse: string -> Option<Event>,
                                        dbAvailable: bool, st: Store, now: int)
    requires Truthy(secret) && sig != "" && Utf8Length(sig) != Utf8Length(hmacHex(secret.value, body))
    ensures var o := HandleWebhook(body, Some(sig), AsWrittenVerifier(secret, hmacHex), parse, dbAvailable, st, now);
      o.reply == ProcessingFailed && StatusCode(o.reply) == 200 && o.store == st
  {
  }

  /** With the intended check, every signature other than the digest is answered 401 and changes nothing. */
  lemma IntendedRejectsForgedSignature(body: string, sig: string, secret: Option<string>,
                                       hmacHex: (string, string) -> string, parse: string -> Option<Event>,
                                       dbAvailable: bool, st: Store, now: int)
    requires sig != "" && (!Truthy(secret) || sig != hmacHex(secret.value, body))
    ensures var o := HandleWebhook(body, Some(sig), IntendedVerifier(secret, hmacHex), parse, dbAvailable, st, now);
      o.reply == InvalidSignature && StatusCode(o.reply) == 401 && o.store == st
  {
  }

  /** An accepted, parsed event on an available database is logged before anything else changes. */
  lemma AcceptedEventIsLogged(body: string, sig: string, verify: (string, string) -> SigCheck,
                              parse: string -> Option<Event>, st: Store, now: int)
    requires sig != "" && verify(body, sig) == Valid && parse(body).Some?
    requires var ev := parse(body).value;
      ev.eventType.Some? && ev.payload.Some? && (Truthy(ev.eventId) || ev.id.Some?)
    ensures var o := HandleWebhook(body, Some(sig), verify, parse, true, st, now);
      var ev := parse(body).value;
      o.store.events ==
        st.events + [LogEntry(ev.eventType.value, if Truthy(ev.eventId) then ev.eventId.value else ev.id.value, now)] &&
      StatusCode(o.reply) == 200
  {
  }

  /** An accepted event without a payload is answered 200 "Processing failed" and leaves no record. */
  lemma PayloadlessEventNotLogged(body: string, sig: string, verify: (string, string) -> SigCheck,
                                  parse: string -> Option<Event>, st: Store, now: int)
    requires sig != "" && verify(body, sig) == Valid && parse(body).Some? && parse(body).value.payload.None?
    ensures HandleWebhook(body, Some(sig), verify, parse, true, st, now) == Outcome(ProcessingFailed, st)
  {
  }

  /**
   * An activation or charge for a known subscription whose user exists sets
   * the subscription's status and period and gives the user the
   * subscription's plan and id; no other subscription changes.
   */
  lemma ActivationUpgradesUser(ev: Event, st: Store, now: int, k: nat)
    requires Kind(ev) == Activation
    requires ev.payload.Some? && ev.payload.value.subscription.Some?
    requires FindSub(st.subscriptions, ev.payload.value.subscription.value.id) == Some(k)
    requires st.subscriptions[k].userId in st.users
    ensures var o := Dispatch(ev, st, now);
      var ent := ev.payload.value.subscription.value;
      var sub := st.subscriptions[k];
      o.reply == Acknowledged &&
      o.store.users[sub.userId] == UserRecord(sub.plan, Some(sub.docId), now) &&
      o.store.subscriptions[k].status == OrElse(ent.status, "active") &&
      o.store.subscriptions[k].currentPeriodStart == PeriodMs(ent.currentStart) &&
      o.store.subscriptions[k].currentPeriodEnd == PeriodMs(ent.currentEnd) &&
      |o.store.subscriptions| == |st.subscriptions| &&
      (forall i :: 0 <= i < |st.subscriptions| && i != k ==> o.store.subscriptions[i] == st.subscriptions[i]) &&
      (forall u :: u in st.users && u != sub.userId ==> u in o.store.users && o.store.users[u] == st.users[u])
  {
  }

  /**
   * A cancellation, completion or expiry for a known subscription whose user
   * exists moves the user to "free" with no subscription; `cancelledAt` is
   * stamped only for a cancellation.
   */
  lemma TerminationDowngradesUser(ev: Event, st: Store, now: int, k: nat)
    requires Kind(ev) == Termination
    requires ev.payload.Some? && ev.payload.value.subscription.Some?
    requires FindSub(st.subscriptions, ev.payload.value.subscription.value.id) == Some(k)
    requires st.subscriptions[k].userId in st.users
    ensures var o := Dispatch(ev, st, now);
      var ent := ev.payload.value.subscription.value;
      var sub := st.subscriptions[k];
      o.reply == Acknowledged &&
      o.store.users[sub.userId] == UserRecord("free", None, now) &&
      o.store.subscriptions[k].status == OrElse(ent.status, Suffix(ev.eventType.value)) &&
      (o.store.subscriptions[k].cancelledAt.Some? <==> ev.eventType == Some("subscription.cancelled")) &&
      o.store.subscriptions[k].plan == sub.plan &&
      (forall i :: 0 <= i < |st.subscriptions| && i != k ==> o.store.subscriptions[i] == st.subscriptions[i])
  {
  }

  /**
   * When the user document is missing, the subscription update has already
   * happened: the reply is 200 "Processing failed" and the user is untouched.
   */
  lemma MissingUserLeavesPartialUpdate(ev: Event, st: Store, now: int, k: nat)
    requires Kind(ev) in {Activation, Termination}
    requires ev.payload.Some? && ev.payload.value.subscription.Some?
    requires FindSub(st.subscriptions, ev.payload.value.subscription.value.id) == Some(k)
    requires st.subscriptions[k].userId !in st.users
    ensures var o := Dispatch(ev, st, now);
      o.reply == ProcessingFailed && o.store.users == st.users &&
      o.store.subscriptions[k].updatedAt == now
  {
  }

  /** No entity or no matching subscription: only the log entry remains. */
  lemma UnmatchedSubscriptionChangesNothing(ev: Event, st: Store, now: int)
    requires ev.payload.Some?
    requires ev.payload.value.subscription.None? ||
      FindSub(st.subscriptions, ev.payload.value.subscription.value.id).None?
    ensures Dispatch(ev, st, now) == Outcome(Acknowledged, st)
  {
  }

  /** An activation followed by a cancellation of the same subscription leaves the user on "free". */
  lemma ActivateThenCancel(act: Event, cancel: Event, st: Store, now1: int, now2: int, k: nat)
    requires Kind(act) == Activation && cancel.eventType == Some("subscription.cancelled")
    requires act.payload.Some? && act.payload.value.subscription.Some?
    requires cancel.payload == act.payload
    requires FindSub(st.subscriptions, act.payload.value.subscription.value.id) == Some(k)
    requires st.subscriptions[k].userId in st.users
    ensures var mid := Dispatch(act, st, now1).store;
      var fin := Dispatch(cancel, mid, now2).store;
      fin.users[st.subscriptions[k].userId] == UserRecord("free", None, now2) &&
      fin.subscriptions[k].cancelledAt == Some(now2)
  {
    var ent := act.payload.value.subscription.value;
    var mid := Dispatch(act, st, now1).store;
    ActivationUpgradesUser(act, st, now1, k);
    assert |mid.subscriptions| == |st.subscriptions|;
    assert forall i :: 0 <= i < |mid.subscriptions| ==>
      mid.subscriptions[i].razorpaySubscriptionId == st.subscriptions[i].razorpaySubscriptionId;
    assert FindSub(mid.subscriptions, ent.id) == Some(k);
    assert mid.subscriptions[k].userId == st.subscriptions[k].userId;
    TerminationDowngradesUser(cancel, mid, now2, k);
  }
}
