/** The daily expiry-alert pass (scripts/sendExpiryEmails.js).

    For every user, in order: each medicine expiring today that was not
    alerted today gets its own mail and is then stamped; afterwards the
    medicines expiring within the next seven days that are (still) not
    alerted today are listed in one consolidated mail and then stamped. The
    first mail that fails ends the whole run.

    `Run` is the pass as a function of the store, the users and the mailer's
    outcomes; `SendExpiryEmails` is the imperative pass, proved equal to it;
    the lemmas state what the pass guarantees. */
module ExpiryAlerts {
  import opened Records
  import opened Calendar
  import Inventory

  /** The two queries of the pass. */
  datatype Window = ExpiredToday | ExpiringSoon

  /** `expiryDate` in `[today, today + 24h)` resp. `(today, today + 7 days]`, owned by `owner`. */
  predicate InWindow(w: Window, m: Medicine, owner: UserId, today: Time)
  {
    && m.user == owner
    && match w
       case ExpiredToday => today <= m.expiryDate < today + MsPerDay
       case ExpiringSoon => today < m.expiryDate <= today + 7 * MsPerDay
  }

  /** The dedupe guard: `med.lastAlertSent && isSameDay(med.lastAlertSent, today)`. */
  predicate AlertedOn(m: Medicine, today: Time)
  {
    m.lastAlertSent.Some? && IsSameDay(m.lastAlertSent.value, today)
  }

  /** `med.lastAlertSent = today`. */
  function Marked(m: Medicine, today: Time): Medicine
  {
    m.(lastAlertSent := Some(today))
  }

  /** A mail the pass sends: to `recipient.email`, greeting `recipient.name`,
      listing the medicines (their names and expiry dates). */
  datatype Mail =
    | ExpiredAlert(recipient: User, medicine: Medicine)
    | SoonAlert(recipient: User, medicines: seq<Medicine>)

  function Covered(mail: Mail): seq<Medicine>
  {
    match mail
    case ExpiredAlert(_, m) => [m]
    case SoonAlert(_, ms) => ms
  }

  function KindOf(mail: Mail): Window
  {
    match mail
    case ExpiredAlert(_, _) => ExpiredToday
    case SoonAlert(_, _) => ExpiringSoon
  }

  /** The notifier. It records every attempt; the attempt with number `n`
      (counting from 0 over the mailer's life) fails exactly when `n` is in
      `failing`. */
  class Mailer {
    var attempts: seq<Mail>
    const failing: set<nat>

    constructor (failing: set<nat>)
      ensures attempts == [] && this.failing == failing
    {
      attempts := [];
      this.failing := failing;
    }

    /** `transporter.sendMail(...)`: `ok` is false when the transport throws. */
    method Send(mail: Mail) returns (ok: bool)
      modifies this
      ensures attempts == old(attempts) + [mail]
      ensures ok <==> |old(attempts)| !in failing
    {
      ok := |attempts| !in failing;
      attempts := attempts + [mail];
    }
  }

  // ---------------------------------------------------------------------------
  // The two windows

  /** For a midnight `today`, the expired-today window is "expires on the same
      calendar day as today". */
  lemma ExpiredTodayIsSameDay(m: Medicine, owner: UserId, today: Time)
    requires IsMidnight(today)
    ensures InWindow(ExpiredToday, m, owner, today) <==> m.user == owner && IsSameDay(m.expiryDate, today)
  {
    SameDayAsMidnight(m.expiryDate, today);
  }

  /** A medicine that expired before today is in neither window, so the pass
      never alerts it; one expiring later today is in both. */
  lemma WindowsOverlapOnlyToday(m: Medicine, owner: UserId, today: Time)
    requires m.user == owner
    ensures m.expiryDate < today ==> !Due(m, owner, today)
    ensures InWindow(ExpiredToday, m, owner, today) && InWindow(ExpiringSoon, m, owner, today)
        <==> today < m.expiryDate < today + MsPerDay
  {
  }

  // ---------------------------------------------------------------------------
  // The queries

  predicate Increasing(idxs: seq<nat>)
  {
    forall k, l :: 0 <= k < l < |idxs| ==> idxs[k] < idxs[l]
  }

  /** Every position of `idxs` is a position of `meds`. */
  predicate InBounds(idxs: seq<nat>, meds: seq<Medicine>)
  {
    forall k :: 0 <= k < |idxs| ==> idxs[k] < |meds|
  }

  /** `Medicine.find({ user, expiryDate: window })`: the positions of the
      matching medicines, in store order. */
  function Query(meds: seq<Medicine>, w: Window, owner: UserId, today: Time): (r: seq<nat>)
    ensures Increasing(r)
    ensures forall k :: 0 <= k < |r| ==> r[k] < |meds| && InWindow(w, meds[r[k]], owner, today)
    ensures forall i :: 0 <= i < |meds| && InWindow(w, meds[i], owner, today) ==> i in r
  {
    if meds == [] then []
    else
      var last := |meds| - 1;
      var r := Query(meds[..last], w, owner, today);
      assert forall i :: 0 <= i < last ==> meds[..last][i] == meds[i];
      if InWindow(w, meds[last], owner, today) then r + [last] else r
  }

  /** Same owners and expiry dates everywhere: what stamping leaves alone. */
  predicate SameShape(a: seq<Medicine>, b: seq<Medicine>)
  {
    |a| == |b| && forall i :: 0 <= i < |a| ==> a[i].user == b[i].user && a[i].expiryDate == b[i].expiryDate
  }

  lemma {:induction false} QueryIgnoresStamps(a: seq<Medicine>, b: seq<Medicine>, w: Window, owner: UserId, today: Time)
    requires SameShape(a, b)
    ensures Query(a, w, owner, today) == Query(b, w, owner, today)
    decreases |a|
  {
    if a != [] {
      var last := |a| - 1;
      QueryIgnoresStamps(a[..last], b[..last], w, owner, today);
    }
  }

  /** `expiringSoonMeds.filter(med => !alerted today)`. */
  function Pending(meds: seq<Medicine>, idxs: seq<nat>, today: Time): (r: seq<nat>)
    requires InBounds(idxs, meds)
    ensures forall k :: 0 <= k < |r| ==> r[k] in idxs && !AlertedOn(meds[r[k]], today)
    ensures forall i :: i in idxs && !AlertedOn(meds[i], today) ==> i in r
    ensures Increasing(idxs) ==> Increasing(r)
  {
    if idxs == [] then []
    else
      var rest := Pending(meds, idxs[1..], today);
      assert forall k :: 0 <= k < |rest| ==> rest[k] in idxs[1..];
      if AlertedOn(meds[idxs[0]], today) then rest else [idxs[0]] + rest
  }

  function Listed(meds: seq<Medicine>, idxs: seq<nat>): (r: seq<Medicine>)
    requires InBounds(idxs, meds)
    ensures |r| == |idxs| && forall k :: 0 <= k < |idxs| ==> r[k] == meds[idxs[k]]
  {
    if idxs == [] then [] else [meds[idxs[0]]] + Listed(meds, idxs[1..])
  }

  /** Stamping every position of `idxs`, first to last. */
  function MarkAll(meds: seq<Medicine>, idxs: seq<nat>, today: Time): (r: seq<Medicine>)
    requires InBounds(idxs, meds)
    requires Increasing(idxs)
    ensures |r| == |meds|
    ensures forall i :: 0 <= i < |meds| ==> r[i] == if i in idxs then Marked(meds[i], today) else meds[i]
    decreases |idxs|
  {
    if idxs == [] then meds
    else MarkAll(meds[idxs[0] := Marked(meds[idxs[0]], today)], idxs[1..], today)
  }

  // ---------------------------------------------------------------------------
  // The pass as a function

  /** The state the pass threads: the store, the mailer's attempts, and
      whether a failed send has ended the run. */
  datatype Pass = Pass(meds: seq<Medicine>, attempts: seq<Mail>, aborted: bool)

  /** The loop over the expired-today medicines of user `u`. */
  function SendExpired(p: Pass, u: User, idxs: seq<nat>, today: Time, failing: set<nat>): (r: Pass)
    requires InBounds(idxs, p.meds)
    ensures |r.meds| == |p.meds|
    decreases |idxs|
  {
    if p.aborted || idxs == [] then p
    else
      var m := p.meds[idxs[0]];
      if AlertedOn(m, today) then SendExpired(p, u, idxs[1..], today, failing)
      else
        var sent := p.attempts + [ExpiredAlert(u, m)];
        if |p.attempts| in failing then Pass(p.meds, sent, true)
        else SendExpired(Pass(p.meds[idxs[0] := Marked(m, today)], sent, false), u, idxs[1..], today, failing)
  }

  /** The consolidated mail for user `u`, sent only when something is pending. */
  function SendSoon(p: Pass, u: User, idxs: seq<nat>, today: Time, failing: set<nat>): (r: Pass)
    requires InBounds(idxs, p.meds) && Increasing(idxs)
    ensures |r.meds| == |p.meds|
  {
    if p.aborted then p
    else
      var pending := Pending(p.meds, idxs, today);
      if pending == [] then p
      else
        var sent := p.attempts + [SoonAlert(u, Listed(p.meds, pending))];
        if |p.attempts| in failing then Pass(p.meds, sent, true)
        else Pass(MarkAll(p.meds, pending, today), sent, false)
  }

  /** One iteration of the loop over users; the second query sees the stamps
      the first part wrote. */
  function AlertUser(p: Pass, u: User, today: Time, failing: set<nat>): (r: Pass)
    ensures |r.meds| == |p.meds|
  {
    var p1 := SendExpired(p, u, Query(p.meds, ExpiredToday, u.id, today), today, failing);
    SendSoon(p1, u, Query(p1.meds, ExpiringSoon, u.id, today), today, failing)
  }

  /** The whole pass over `users`. */
  function Run(p: Pass, users: seq<User>, today: Time, failing: set<nat>): (r: Pass)
    ensures |r.meds| == |p.meds|
    decreases |users|
  {
    if users == [] || p.aborted then p
    else Run(AlertUser(p, users[0], today, failing), users[1..], today, failing)
  }

  // ---------------------------------------------------------------------------
  // What one stretch of the pass guarantees, from state p to state r.

  /** Only stamps are written, and only on medicines not yet alerted today. */
  ghost predicate StampsOnly(p: Pass, r: Pass, today: Time)
  {
    && |r.meds| == |p.meds|
    && forall i :: 0 <= i < |p.meds| ==>
         r.meds[i] == p.meds[i] || (!AlertedOn(p.meds[i], today) && r.meds[i] == Marked(p.meds[i], today))
  }

  /** Attempts are only appended; an abort is final and is caused by the last
      attempt failing; every other attempt succeeded. */
  ghost predicate Outcomes(p: Pass, r: Pass, failing: set<nat>)
  {
    && p.attempts <= r.attempts
    && (p.aborted ==> r == p)
    && (forall k :: |p.attempts| <= k < |r.attempts| && k in failing ==> r.aborted && k == |r.attempts| - 1)
    && (r.aborted && !p.aborted ==> |p.attempts| < |r.attempts| && |r.attempts| - 1 in failing)
  }

  /** A mail of the pass goes to one of the users and lists, without repeats,
      medicines of the store that are in the mail's window for that user and
      were not alerted today. */
  ghost predicate MailOk(mail: Mail, meds: seq<Medicine>, users: seq<User>, today: Time)
  {
    && mail.recipient in users
    && |Covered(mail)| > 0
    && (forall m :: m in Covered(mail) ==>
          m in meds && !AlertedOn(m, today) && InWindow(KindOf(mail), m, mail.recipient.id, today))
    && (forall a, b :: 0 <= a < b < |Covered(mail)| ==> Covered(mail)[a].id != Covered(mail)[b].id)
  }

  ghost predicate NewMailsOk(p: Pass, r: Pass, users: seq<User>, today: Time)
    requires p.attempts <= r.attempts
  {
    forall k :: |p.attempts| <= k < |r.attempts| ==> MailOk(r.attempts[k], p.meds, users, today)
  }

  /** A stamp is written only after a mail listing that medicine went out. */
  ghost predicate StampedAfterSend(p: Pass, r: Pass, failing: set<nat>)
    requires |r.meds| == |p.meds| && p.attempts <= r.attempts
  {
    forall i :: 0 <= i < |p.meds| && r.meds[i] != p.meds[i] ==>
      exists k :: |p.attempts| <= k < |r.attempts| && k !in failing && p.meds[i] in Covered(r.attempts[k])
  }

  /** Every medicine of a mail that went out carries today's stamp afterwards. */
  ghost predicate SentAreStamped(p: Pass, r: Pass, failing: set<nat>, today: Time)
    requires p.attempts <= r.attempts
  {
    forall k, m :: |p.attempts| <= k < |r.attempts| && k !in failing && m in Covered(r.attempts[k]) ==>
      Marked(m, today) in r.meds
  }

  /** No medicine is listed in two different mails. */
  ghost predicate AtMostOnce(p: Pass, r: Pass)
    requires p.attempts <= r.attempts
  {
    forall k, l, a, b :: |p.attempts| <= k < l < |r.attempts| && a in Covered(r.attempts[k]) && b in Covered(r.attempts[l]) ==>
      a.id != b.id
  }

  ghost predicate Sound(p: Pass, r: Pass, users: seq<User>, today: Time, failing: set<nat>)
  {
    && StampsOnly(p, r, today)
    && Outcomes(p, r, failing)
    && NewMailsOk(p, r, users, today)
    && StampedAfterSend(p, r, failing)
    && SentAreStamped(p, r, failing, today)
    && AtMostOnce(p, r)
  }

  lemma MarkedIsAlerted(m: Medicine, today: Time)
    ensures AlertedOn(Marked(m, today), today)
  {
    SameDayIsEquivalence(today, today, today);
  }

  lemma SoundRefl(p: Pass, users: seq<User>, today: Time, failing: set<nat>)
    ensures Sound(p, p, users, today, failing)
  {
  }

  // ---------------------------------------------------------------------------
  // Composing stretches of the pass

  lemma StampsKeepShape(p: Pass, q: Pass, today: Time)
    requires StampsOnly(p, q, today)
    ensures SameShape(p.meds, q.meds)
    ensures forall i :: 0 <= i < |p.meds| ==> q.meds[i].id == p.meds[i].id
    ensures UniqueIds(p.meds) ==> UniqueIds(q.meds)
  {
  }

  /** A medicine of the later store that is still unalerted was there from the start. */
  lemma UnstampedWasThere(p: Pass, q: Pass, today: Time, m: Medicine)
    requires StampsOnly(p, q, today)
    requires m in q.meds && !AlertedOn(m, today)
    ensures m in p.meds
  {
    var j :| 0 <= j < |q.meds| && q.meds[j] == m;
    if q.meds[j] != p.meds[j] {
      MarkedIsAlerted(p.meds[j], today);
    }
  }

  lemma StampsTrans(p: Pass, q: Pass, r: Pass, today: Time)
    requires StampsOnly(p, q, today) && StampsOnly(q, r, today)
    ensures StampsOnly(p, r, today)
  {
    forall i | 0 <= i < |p.meds| && q.meds[i] != p.meds[i] {
      MarkedIsAlerted(p.meds[i], today);
    }
  }

  lemma OutcomesTrans(p: Pass, q: Pass, r: Pass, failing: set<nat>)
    requires Outcomes(p, q, failing) && Outcomes(q, r, failing)
    ensures Outcomes(p, r, failing)
  {
  }

  lemma MailsTrans(p: Pass, q: Pass, r: Pass, users: seq<User>, today: Time, failing: set<nat>)
    requires StampsOnly(p, q, today) && Outcomes(p, q, failing) && Outcomes(q, r, failing)
    requires NewMailsOk(p, q, users, today) && NewMailsOk(q, r, users, today)
    ensures NewMailsOk(p, r, users, today)
  {
    forall k | |p.attempts| <= k < |r.attempts| ensures MailOk(r.attempts[k], p.meds, users, today) {
      if k < |q.attempts| {
        assert r.attempts[k] == q.attempts[k];
      } else {
        forall m | m in Covered(r.attempts[k]) ensures m in p.meds {
          UnstampedWasThere(p, q, today, m);
        }
      }
    }
  }

  lemma StampedAfterSendTrans(p: Pass, q: Pass, r: Pass, failing: set<nat>)
    requires |q.meds| == |p.meds| && |r.meds| == |q.meds|
    requires Outcomes(p, q, failing) && Outcomes(q, r, failing)
    requires StampedAfterSend(p, q, failing) && StampedAfterSend(q, r, failing)
    ensures StampedAfterSend(p, r, failing)
  {
    forall i | 0 <= i < |p.meds| && r.meds[i] != p.meds[i]
      ensures exists k :: |p.attempts| <= k < |r.attempts| && k !in failing && p.meds[i] in Covered(r.attempts[k])
    {
      if q.meds[i] != p.meds[i] {
        var k :| |p.attempts| <= k < |q.attempts| && k !in failing && p.meds[i] in Covered(q.attempts[k]);
        assert r.attempts[k] == q.attempts[k];
      } else {
        var k :| |q.attempts| <= k < |r.attempts| && k !in failing && q.meds[i] in Covered(r.attempts[k]);
      }
    }
  }

  lemma SentAreStampedTrans(p: Pass, q: Pass, r: Pass, failing: set<nat>, today: Time)
    requires StampsOnly(q, r, today) && Outcomes(p, q, failing) && Outcomes(q, r, failing)
    requires SentAreStamped(p, q, failing, today) && SentAreStamped(q, r, failing, today)
    ensures SentAreStamped(p, r, failing, today)
  {
    forall k, m | |p.attempts| <= k < |r.attempts| && k !in failing && m in Covered(r.attempts[k])
      ensures Marked(m, today) in r.meds
    {
      if k < |q.attempts| {
        assert r.attempts[k] == q.attempts[k];
        var j :| 0 <= j < |q.meds| && q.meds[j] == Marked(m, today);
        MarkedIsAlerted(m, today);
        assert r.meds[j] == q.meds[j];
      }
    }
  }

  lemma AtMostOnceTrans(p: Pass, q: Pass, r: Pass, users: seq<User>, today: Time, failing: set<nat>)
    requires UniqueIds(q.meds)
    requires Outcomes(p, q, failing) && Outcomes(q, r, failing)
    requires SentAreStamped(p, q, failing, today) && NewMailsOk(q, r, users, today)
    requires AtMostOnce(p, q) && AtMostOnce(q, r)
    ensures AtMostOnce(p, r)
  {
    forall k, l, a, b | |p.attempts| <= k < l < |r.attempts| && a in Covered(r.attempts[k]) && b in Covered(r.attempts[l])
      ensures a.id != b.id
    {
      if l < |q.attempts| {
        assert r.attempts[k] == q.attempts[k] && r.attempts[l] == q.attempts[l];
      } else if k < |q.attempts| {
        assert r.attempts[k] == q.attempts[k];
        assert k !in failing;
        assert MailOk(r.attempts[l], q.meds, users, today);
        StampedNotPending(q.meds, a, b, today);
      }
    }
  }

  /** A medicine stamped today and one still unalerted are different medicines. */
  lemma StampedNotPending(meds: seq<Medicine>, a: Medicine, b: Medicine, today: Time)
    requires UniqueIds(meds)
    requires Marked(a, today) in meds && b in meds && !AlertedOn(b, today)
    ensures a.id != b.id
  {
    var j1 :| 0 <= j1 < |meds| && meds[j1] == Marked(a, today);
    var j2 :| 0 <= j2 < |meds| && meds[j2] == b;
    MarkedIsAlerted(a, today);
  }

  lemma SoundTrans(p: Pass, q: Pass, r: Pass, users: seq<User>, today: Time, failing: set<nat>)
    requires UniqueIds(p.meds)
    requires Sound(p, q, users, today, failing) && Sound(q, r, users, today, failing)
    ensures Sound(p, r, users, today, failing)
  {
    StampsKeepShape(p, q, today);
    StampsTrans(p, q, r, today);
    OutcomesTrans(p, q, r, failing);
    MailsTrans(p, q, r, users, today, failing);
    StampedAfterSendTrans(p, q, r, failing);
    SentAreStampedTrans(p, q, r, failing, today);
    AtMostOnceTrans(p, q, r, users, today, failing);
  }

  // ---------------------------------------------------------------------------
  // Each part of the pass is sound

  predicate Windowed(w: Window, idxs: seq<nat>, meds: seq<Medicine>, owner: UserId, today: Time)
    requires InBounds(idxs, meds)
  {
    forall k :: 0 <= k < |idxs| ==> InWindow(w, meds[idxs[k]], owner, today)
  }

  lemma ExpiredStepSound(p: Pass, u: User, i: nat, users: seq<User>, today: Time, failing: set<nat>)
    requires !p.aborted && i < |p.meds| && u in users
    requires !AlertedOn(p.meds[i], today) && InWindow(ExpiredToday, p.meds[i], u.id, today)
    ensures var sent := p.attempts + [ExpiredAlert(u, p.meds[i])];
      && (|p.attempts| in failing ==> Sound(p, Pass(p.meds, sent, true), users, today, failing))
      && (|p.attempts| !in failing ==>
            Sound(p, Pass(p.meds[i := Marked(p.meds[i], today)], sent, false), users, today, failing))
  {
    var mail := ExpiredAlert(u, p.meds[i]);
    var sent := p.attempts + [mail];
    assert sent[|p.attempts|] == mail;
    assert MailOk(mail, p.meds, users, today);
    if |p.attempts| in failing {
      AbortSound(p, mail, users, today, failing);
    } else {
      var r := Pass(p.meds[i := Marked(p.meds[i], today)], sent, false);
      assert StampsOnly(p, r, today);
      assert NewMailsOk(p, r, users, today);
      assert StampedAfterSend(p, r, failing) by {
        forall j | 0 <= j < |p.meds| && r.meds[j] != p.meds[j]
          ensures |p.attempts| !in failing && p.meds[j] in Covered(r.attempts[|p.attempts|])
        {
          assert j == i;
        }
      }
      assert SentAreStamped(p, r, failing, today) by {
        forall k, m | |p.attempts| <= k < |r.attempts| && k !in failing && m in Covered(r.attempts[k])
          ensures Marked(m, today) in r.meds
        {
          assert m == p.meds[i] && r.meds[i] == Marked(m, today);
        }
      }
    }
  }

  lemma {:induction false} SendExpiredSound(p: Pass, u: User, idxs: seq<nat>, users: seq<User>, today: Time, failing: set<nat>)
    requires InBounds(idxs, p.meds) && UniqueIds(p.meds) && u in users
    requires Windowed(ExpiredToday, idxs, p.meds, u.id, today)
    ensures Sound(p, SendExpired(p, u, idxs, today, failing), users, today, failing)
    decreases |idxs|
  {
    if p.aborted || idxs == [] {
      SoundRefl(p, users, today, failing);
    } else {
      var m := p.meds[idxs[0]];
      if AlertedOn(m, today) {
        SendExpiredSound(p, u, idxs[1..], users, today, failing);
      } else {
        ExpiredStepSound(p, u, idxs[0], users, today, failing);
        if |p.attempts| !in failing {
          var q := Pass(p.meds[idxs[0] := Marked(m, today)], p.attempts + [ExpiredAlert(u, m)], false);
          StampsKeepShape(p, q, today);
          SendExpiredSound(q, u, idxs[1..], users, today, failing);
          SoundTrans(p, q, SendExpired(q, u, idxs[1..], today, failing), users, today, failing);
        }
      }
    }
  }

  lemma PendingDistinctIds(meds: seq<Medicine>, pending: seq<nat>)
    requires InBounds(pending, meds) && Increasing(pending) && UniqueIds(meds)
    ensures forall a, b :: 0 <= a < b < |pending| ==> Listed(meds, pending)[a].id != Listed(meds, pending)[b].id
  {
  }

  lemma SoonMailOk(p: Pass, u: User, idxs: seq<nat>, users: seq<User>, today: Time)
    requires InBounds(idxs, p.meds) && Increasing(idxs) && UniqueIds(p.meds) && u in users
    requires Windowed(ExpiringSoon, idxs, p.meds, u.id, today)
    requires Pending(p.meds, idxs, today) != []
    ensures MailOk(SoonAlert(u, Listed(p.meds, Pending(p.meds, idxs, today))), p.meds, users, today)
  {
    var pending := Pending(p.meds, idxs, today);
    PendingDistinctIds(p.meds, pending);
    PendingListed(p.meds, idxs, u.id, today);
    var mail := SoonAlert(u, Listed(p.meds, pending));
    assert Covered(mail) == Listed(p.meds, pending) && KindOf(mail) == ExpiringSoon;
  }

  /** Every medicine the consolidated mail lists is in the store, in the
      window and not alerted today. */
  lemma PendingListed(meds: seq<Medicine>, idxs: seq<nat>, owner: UserId, today: Time)
    requires InBounds(idxs, meds) && Windowed(ExpiringSoon, idxs, meds, owner, today)
    ensures forall m :: m in Listed(meds, Pending(meds, idxs, today)) ==>
      m in meds && !AlertedOn(m, today) && InWindow(ExpiringSoon, m, owner, today)
  {
    var pending := Pending(meds, idxs, today);
    var listed := Listed(meds, pending);
    forall m | m in listed
      ensures m in meds && !AlertedOn(m, today) && InWindow(ExpiringSoon, m, owner, today)
    {
      var k :| 0 <= k < |listed| && listed[k] == m;
      assert pending[k] in idxs;
      var j :| 0 <= j < |idxs| && idxs[j] == pending[k];
    }
  }

  /** A failed send: nothing is stamped and the pass stops. */
  lemma AbortSound(p: Pass, mail: Mail, users: seq<User>, today: Time, failing: set<nat>)
    requires !p.aborted && MailOk(mail, p.meds, users, today) && |p.attempts| in failing
    ensures Sound(p, Pass(p.meds, p.attempts + [mail], true), users, today, failing)
  {
    var r := Pass(p.meds, p.attempts + [mail], true);
    assert r.attempts[|p.attempts|] == mail;
    assert NewMailsOk(p, r, users, today);
  }

  /** Stamping the positions of a consolidated mail: what changes is exactly
      the listed medicines, each now stamped. */
  lemma MarkListed(meds: seq<Medicine>, pending: seq<nat>, today: Time)
    requires InBounds(pending, meds) && Increasing(pending)
    ensures var r := MarkAll(meds, pending, today);
      && (forall i :: 0 <= i < |meds| && r[i] != meds[i] ==> r[i] == Marked(meds[i], today) && meds[i] in Listed(meds, pending))
      && (forall m :: m in Listed(meds, pending) ==> Marked(m, today) in r)
  {
    var r := MarkAll(meds, pending, today);
    var listed := Listed(meds, pending);
    forall i | 0 <= i < |meds| && r[i] != meds[i]
      ensures meds[i] in listed
    {
      var k :| 0 <= k < |pending| && pending[k] == i;
      assert listed[k] == meds[i];
    }
    forall m | m in listed ensures Marked(m, today) in r {
      var k :| 0 <= k < |listed| && listed[k] == m;
      assert r[pending[k]] == Marked(m, today);
    }
  }

  lemma SoonStampsSound(p: Pass, mail: Mail, pending: seq<nat>, users: seq<User>, today: Time, failing: set<nat>)
    requires !p.aborted && InBounds(pending, p.meds) && Increasing(pending)
    requires forall k :: 0 <= k < |pending| ==> !AlertedOn(p.meds[pending[k]], today)
    requires mail.SoonAlert? && mail.medicines == Listed(p.meds, pending)
    requires MailOk(mail, p.meds, users, today) && |p.attempts| !in failing
    ensures Sound(p, Pass(MarkAll(p.meds, pending, today), p.attempts + [mail], false), users, today, failing)
  {
    var r := Pass(MarkAll(p.meds, pending, today), p.attempts + [mail], false);
    assert r.attempts[|p.attempts|] == mail;
    MarkListed(p.meds, pending, today);
    assert StampsOnly(p, r, today);
    assert StampedAfterSend(p, r, failing);
    assert SentAreStamped(p, r, failing, today);
    assert NewMailsOk(p, r, users, today);
  }

  lemma SendSoonSound(p: Pass, u: User, idxs: seq<nat>, users: seq<User>, today: Time, failing: set<nat>)
    requires InBounds(idxs, p.meds) && Increasing(idxs) && UniqueIds(p.meds) && u in users
    requires Windowed(ExpiringSoon, idxs, p.meds, u.id, today)
    ensures Sound(p, SendSoon(p, u, idxs, today, failing), users, today, failing)
  {
    if p.aborted || Pending(p.meds, idxs, today) == [] {
      SoundRefl(p, users, today, failing);
    } else {
      var pending := Pending(p.meds, idxs, today);
      var mail := SoonAlert(u, Listed(p.meds, pending));
      SoonMailOk(p, u, idxs, users, today);
      if |p.attempts| !in failing {
        SoonStampsSound(p, mail, pending, users, today, failing);
      } else {
        AbortSound(p, mail, users, today, failing);
      }
    }
  }

  lemma AlertUserSound(p: Pass, u: User, users: seq<User>, today: Time, failing: set<nat>)
    requires UniqueIds(p.meds) && u in users
    ensures Sound(p, AlertUser(p, u, today, failing), users, today, failing)
  {
    var idxs := Query(p.meds, ExpiredToday, u.id, today);
    SendExpiredSound(p, u, idxs, users, today, failing);
    var q := SendExpired(p, u, idxs, today, failing);
    StampsKeepShape(p, q, today);
    SendSoonSound(q, u, Query(q.meds, ExpiringSoon, u.id, today), users, today, failing);
    SoundTrans(p, q, AlertUser(p, u, today, failing), users, today, failing);
  }

  lemma {:induction false} RunSound(p: Pass, us: seq<User>, users: seq<User>, today: Time, failing: set<nat>)
    requires UniqueIds(p.meds)
    requires forall u :: u in us ==> u in users
    ensures Sound(p, Run(p, us, today, failing), users, today, failing)
    decreases |us|
  {
    if us == [] || p.aborted {
      SoundRefl(p, users, today, failing);
    } else {
      var q := AlertUser(p, us[0], today, failing);
      AlertUserSound(p, us[0], users, today, failing);
      StampsKeepShape(p, q, today);
      RunSound(q, us[1..], users, today, failing);
      SoundTrans(p, q, Run(q, us[1..], today, failing), users, today, failing);
    }
  }

  // The single facts the later proofs need, each taken from the bundle on its own.

  lemma SendExpiredStamps(p: Pass, u: User, idxs: seq<nat>, users: seq<User>, today: Time, failing: set<nat>)
    requires InBounds(idxs, p.meds) && UniqueIds(p.meds) && u in users
    requires Windowed(ExpiredToday, idxs, p.meds, u.id, today)
    ensures StampsOnly(p, SendExpired(p, u, idxs, today, failing), today)
  {
    SendExpiredSound(p, u, idxs, users, today, failing);
  }

  lemma SendSoonStamps(p: Pass, u: User, idxs: seq<nat>, users: seq<User>, today: Time, failing: set<nat>)
    requires InBounds(idxs, p.meds) && Increasing(idxs) && UniqueIds(p.meds) && u in users
    requires Windowed(ExpiringSoon, idxs, p.meds, u.id, today)
    ensures StampsOnly(p, SendSoon(p, u, idxs, today, failing), today)
  {
    SendSoonSound(p, u, idxs, users, today, failing);
  }

  lemma AlertUserStamps(p: Pass, u: User, users: seq<User>, today: Time, failing: set<nat>)
    requires UniqueIds(p.meds) && u in users
    ensures StampsOnly(p, AlertUser(p, u, today, failing), today)
  {
    AlertUserSound(p, u, users, today, failing);
  }

  lemma RunStamps(p: Pass, us: seq<User>, users: seq<User>, today: Time, failing: set<nat>)
    requires UniqueIds(p.meds)
    requires forall u :: u in us ==> u in users
    ensures StampsOnly(p, Run(p, us, today, failing), today)
  {
    RunSound(p, us, users, today, failing);
  }

  lemma RunOutcomes(p: Pass, us: seq<User>, users: seq<User>, today: Time, failing: set<nat>)
    requires UniqueIds(p.meds)
    requires forall u :: u in us ==> u in users
    ensures Outcomes(p, Run(p, us, today, failing), failing)
  {
    RunSound(p, us, users, today, failing);
  }

  // ---------------------------------------------------------------------------
  // Coverage: a run that completes leaves every due medicine alerted

  /** In either window of `owner`. */
  predicate Due(m: Medicine, owner: UserId, today: Time)
  {
    InWindow(ExpiredToday, m, owner, today) || InWindow(ExpiringSoon, m, owner, today)
  }

  /** Every medicine due for one of `users` already carries today's stamp. */
  ghost predicate AllAlerted(meds: seq<Medicine>, users: seq<User>, today: Time)
  {
    forall i, u :: 0 <= i < |meds| && u in users && Due(meds[i], u.id, today) ==> AlertedOn(meds[i], today)
  }

  lemma AlertedStays(p: Pass, r: Pass, today: Time)
    requires StampsOnly(p, r, today)
    ensures forall i :: 0 <= i < |p.meds| && AlertedOn(p.meds[i], today) ==> AlertedOn(r.meds[i], today)
  {
  }

  lemma {:induction false} SendExpiredCovers(p: Pass, u: User, idxs: seq<nat>, users: seq<User>, today: Time, failing: set<nat>)
    requires InBounds(idxs, p.meds) && UniqueIds(p.meds) && u in users
    requires Windowed(ExpiredToday, idxs, p.meds, u.id, today)
    ensures var r := SendExpired(p, u, idxs, today, failing);
      !r.aborted ==> forall k :: 0 <= k < |idxs| ==> AlertedOn(r.meds[idxs[k]], today)
    decreases |idxs|
  {
    if !p.aborted && idxs != [] {
      var m := p.meds[idxs[0]];
      var q := if AlertedOn(m, today) then p
               else Pass(p.meds[idxs[0] := Marked(m, today)], p.attempts + [ExpiredAlert(u, m)], false);
      if !AlertedOn(m, today) && |p.attempts| !in failing {
        ExpiredStepSound(p, u, idxs[0], users, today, failing);
        StampsKeepShape(p, q, today);
        MarkedIsAlerted(m, today);
      }
      if AlertedOn(m, today) || |p.attempts| !in failing {
        var r := SendExpired(q, u, idxs[1..], today, failing);
        assert r == SendExpired(p, u, idxs, today, failing);
        assert AlertedOn(q.meds[idxs[0]], today);
        SendExpiredCovers(q, u, idxs[1..], users, today, failing);
        SendExpiredStamps(q, u, idxs[1..], users, today, failing);
        AlertedStays(q, r, today);
        assert forall k :: 1 <= k < |idxs| ==> idxs[k] == idxs[1..][k - 1];
      }
    }
  }

  lemma SendSoonCovers(p: Pass, u: User, idxs: seq<nat>, today: Time, failing: set<nat>)
    requires InBounds(idxs, p.meds) && Increasing(idxs)
    ensures var r := SendSoon(p, u, idxs, today, failing);
      !r.aborted ==> forall k :: 0 <= k < |idxs| ==> AlertedOn(r.meds[idxs[k]], today)
  {
    var pending := Pending(p.meds, idxs, today);
    forall k | 0 <= k < |idxs| && !AlertedOn(p.meds[idxs[k]], today) ensures idxs[k] in pending {
    }
    forall k | 0 <= k < |idxs| ensures AlertedOn(Marked(p.meds[idxs[k]], today), today) {
      MarkedIsAlerted(p.meds[idxs[k]], today);
    }
  }

  lemma AlertUserCovers(p: Pass, u: User, users: seq<User>, today: Time, failing: set<nat>)
    requires UniqueIds(p.meds) && u in users
    ensures var r := AlertUser(p, u, today, failing);
      !r.aborted ==> forall i :: 0 <= i < |p.meds| && Due(p.meds[i], u.id, today) ==> AlertedOn(r.meds[i], today)
  {
    var idxs := Query(p.meds, ExpiredToday, u.id, today);
    var q := SendExpired(p, u, idxs, today, failing);
    var soon := Query(q.meds, ExpiringSoon, u.id, today);
    var r := SendSoon(q, u, soon, today, failing);
    SendExpiredStamps(p, u, idxs, users, today, failing);
    SendExpiredCovers(p, u, idxs, users, today, failing);
    StampsKeepShape(p, q, today);
    SendSoonStamps(q, u, soon, users, today, failing);
    SendSoonCovers(q, u, soon, today, failing);
    AlertedStays(q, r, today);
    if !r.aborted {
      forall i | 0 <= i < |p.meds| && Due(p.meds[i], u.id, today) ensures AlertedOn(r.meds[i], today) {
        if InWindow(ExpiredToday, p.meds[i], u.id, today) {
          var k :| 0 <= k < |idxs| && idxs[k] == i;
        } else {
          assert InWindow(ExpiringSoon, q.meds[i], u.id, today);
          var k :| 0 <= k < |soon| && soon[k] == i;
        }
      }
    }
  }

  lemma {:induction false} RunCovers(p: Pass, us: seq<User>, users: seq<User>, today: Time, failing: set<nat>)
    requires UniqueIds(p.meds)
    requires forall u :: u in us ==> u in users
    ensures var r := Run(p, us, today, failing);
      !r.aborted ==> AllAlerted(r.meds, us, today)
    decreases |us|
  {
    var r := Run(p, us, today, failing);
    if us == [] || p.aborted {
    } else {
      var q := AlertUser(p, us[0], today, failing);
      AlertUserStamps(p, us[0], users, today, failing);
      AlertUserCovers(p, us[0], users, today, failing);
      StampsKeepShape(p, q, today);
      RunCovers(q, us[1..], users, today, failing);
      RunStamps(q, us[1..], users, today, failing);
      StampsKeepShape(q, r, today);
      AlertedStays(q, r, today);
      if !r.aborted {
        forall i, u | 0 <= i < |r.meds| && u in us && Due(r.meds[i], u.id, today) ensures AlertedOn(r.meds[i], today) {
          if u != us[0] {
            assert u in us[1..];
          } else {
            assert Due(p.meds[i], u.id, today);
          }
        }
      }
    }
  }

  // ---------------------------------------------------------------------------
  // A run with nothing due sends nothing

  lemma {:induction false} SendExpiredQuiet(p: Pass, u: User, idxs: seq<nat>, today: Time, failing: set<nat>)
    requires InBounds(idxs, p.meds)
    requires forall k :: 0 <= k < |idxs| ==> AlertedOn(p.meds[idxs[k]], today)
    ensures SendExpired(p, u, idxs, today, failing) == p
    decreases |idxs|
  {
    if !p.aborted && idxs != [] {
      SendExpiredQuiet(p, u, idxs[1..], today, failing);
    }
  }

  lemma AlertUserQuiet(p: Pass, u: User, today: Time, failing: set<nat>)
    requires forall i :: 0 <= i < |p.meds| && Due(p.meds[i], u.id, today) ==> AlertedOn(p.meds[i], today)
    ensures AlertUser(p, u, today, failing) == p
  {
    var idxs := Query(p.meds, ExpiredToday, u.id, today);
    SendExpiredQuiet(p, u, idxs, today, failing);
  }

  lemma {:induction false} RunQuiet(p: Pass, us: seq<User>, today: Time, failing: set<nat>)
    requires AllAlerted(p.meds, us, today)
    ensures Run(p, us, today, failing) == p
    decreases |us|
  {
    if us != [] && !p.aborted {
      AlertUserQuiet(p, us[0], today, failing);
      assert forall u :: u in us[1..] ==> u in us;
      RunQuiet(p, us[1..], today, failing);
    }
  }

  // ---------------------------------------------------------------------------
  // What a whole run guarantees, starting from the store `meds` and a mailer
  // that has made the attempts `sent` so far

  /** Only `lastAlertSent` is written, only to today, and never on a medicine
      already alerted today. */
  lemma RunOnlyStamps(meds: seq<Medicine>, sent: seq<Mail>, users: seq<User>, today: Time, failing: set<nat>)
    requires UniqueIds(meds)
    ensures var r := Run(Pass(meds, sent, false), users, today, failing);
      && |r.meds| == |meds|
      && forall i :: 0 <= i < |meds| ==>
           r.meds[i] == meds[i] || (!AlertedOn(meds[i], today) && r.meds[i] == Marked(meds[i], today))
  {
    RunStamps(Pass(meds, sent, false), users, users, today, failing);
  }

  /** Every mail of the run goes to one of the users and lists, without repeats,
      medicines of that user that lie in the mail's window and were not alerted today. */
  lemma RunMailsInWindow(meds: seq<Medicine>, sent: seq<Mail>, users: seq<User>, today: Time, failing: set<nat>)
    requires UniqueIds(meds)
    ensures var r := Run(Pass(meds, sent, false), users, today, failing);
      && sent <= r.attempts
      && forall k :: |sent| <= k < |r.attempts| ==>
           && r.attempts[k].recipient in users
           && |Covered(r.attempts[k])| > 0
           && (forall m :: m in Covered(r.attempts[k]) ==>
                 m in meds && !AlertedOn(m, today) && InWindow(KindOf(r.attempts[k]), m, r.attempts[k].recipient.id, today))
           && (forall a, b :: 0 <= a < b < |Covered(r.attempts[k])| ==> Covered(r.attempts[k])[a].id != Covered(r.attempts[k])[b].id)
  {
    RunSound(Pass(meds, sent, false), users, users, today, failing);
  }

  /** The dedupe guard: a medicine alerted earlier today is in no mail of the run
      and keeps its record. */
  lemma RunSkipsAlertedToday(meds: seq<Medicine>, sent: seq<Mail>, users: seq<User>, today: Time, failing: set<nat>, i: nat)
    requires UniqueIds(meds) && i < |meds| && AlertedOn(meds[i], today)
    ensures var r := Run(Pass(meds, sent, false), users, today, failing);
      && r.meds[i] == meds[i]
      && forall k, m :: |sent| <= k < |r.attempts| && m in Covered(r.attempts[k]) ==> m.id != meds[i].id
  {
    var p := Pass(meds, sent, false);
    var r := Run(p, users, today, failing);
    RunSound(p, users, users, today, failing);
    forall k, m | |sent| <= k < |r.attempts| && m in Covered(r.attempts[k]) ensures m.id != meds[i].id {
      assert MailOk(r.attempts[k], meds, users, today);
      var j :| 0 <= j < |meds| && meds[j] == m;
    }
  }

  /** A stamp is written only after a mail listing that medicine was sent
      successfully in this run. */
  lemma RunStampsAfterSend(meds: seq<Medicine>, sent: seq<Mail>, users: seq<User>, today: Time, failing: set<nat>)
    requires UniqueIds(meds)
    ensures var r := Run(Pass(meds, sent, false), users, today, failing);
      && |r.meds| == |meds| && sent <= r.attempts
      && forall i :: 0 <= i < |meds| && r.meds[i] != meds[i] ==>
           exists k :: |sent| <= k < |r.attempts| && k !in failing && meds[i] in Covered(r.attempts[k])
  {
    RunSound(Pass(meds, sent, false), users, users, today, failing);
  }

  /** At most one alert per medicine per run: no medicine is listed in two mails,
      so a medicine expiring later today that got its own mail is left out of the
      consolidated one. */
  lemma RunAtMostOnce(meds: seq<Medicine>, sent: seq<Mail>, users: seq<User>, today: Time, failing: set<nat>)
    requires UniqueIds(meds)
    ensures var r := Run(Pass(meds, sent, false), users, today, failing);
      forall k, l, a, b :: |sent| <= k < l < |r.attempts| && a in Covered(r.attempts[k]) && b in Covered(r.attempts[l]) ==>
        a.id != b.id
  {
    RunSound(Pass(meds, sent, false), users, users, today, failing);
  }

  /** A failed send ends the run: the run is cut short exactly when one of its
      attempts failed, and that attempt is its last. */
  lemma RunStopsAtFailure(meds: seq<Medicine>, sent: seq<Mail>, users: seq<User>, today: Time, failing: set<nat>)
    requires UniqueIds(meds)
    ensures var r := Run(Pass(meds, sent, false), users, today, failing);
      && sent <= r.attempts
      && (r.aborted <==> exists k :: |sent| <= k < |r.attempts| && k in failing)
      && (r.aborted ==> |r.attempts| - 1 in failing)
      && forall k :: |sent| <= k < |r.attempts| - 1 ==> k !in failing
  {
    var p := Pass(meds, sent, false);
    var r := Run(p, users, today, failing);
    RunOutcomes(p, users, users, today, failing);
    OutcomesFromStart(p, r, failing);
  }

  lemma OutcomesFromStart(p: Pass, r: Pass, failing: set<nat>)
    requires !p.aborted && Outcomes(p, r, failing)
    ensures p.attempts <= r.attempts
    ensures r.aborted <==> exists k :: |p.attempts| <= k < |r.attempts| && k in failing
    ensures r.aborted ==> |r.attempts| - 1 in failing
    ensures forall k :: |p.attempts| <= k < |r.attempts| - 1 ==> k !in failing
  {
    if r.aborted {
      var k := |r.attempts| - 1;
      assert |p.attempts| <= k < |r.attempts| && k in failing;
    }
  }

  /** Idempotence: after a run that completed, a second run on the same day,
      whatever its mailer does, sends nothing and changes nothing. */
  lemma SecondRunSendsNothing(meds: seq<Medicine>, sent: seq<Mail>, users: seq<User>, today: Time, failing: set<nat>, failing2: set<nat>)
    requires UniqueIds(meds)
    ensures var r := Run(Pass(meds, sent, false), users, today, failing);
      !r.aborted ==> Run(Pass(r.meds, r.attempts, false), users, today, failing2) == Pass(r.meds, r.attempts, false)
  {
    var r := Run(Pass(meds, sent, false), users, today, failing);
    RunCovers(Pass(meds, sent, false), users, users, today, failing);
    if !r.aborted {
      RunQuiet(r, users, today, failing2);
    }
  }

  // ---------------------------------------------------------------------------
  // The mails of one user

  lemma {:induction false} SendExpiredMails(p: Pass, u: User, idxs: seq<nat>, today: Time, failing: set<nat>)
    requires InBounds(idxs, p.meds)
    ensures var r := SendExpired(p, u, idxs, today, failing);
      && p.attempts <= r.attempts
      && forall k :: |p.attempts| <= k < |r.attempts| ==> r.attempts[k].ExpiredAlert? && r.attempts[k].recipient == u
    decreases |idxs|
  {
    if !p.aborted && idxs != [] {
      var m := p.meds[idxs[0]];
      if AlertedOn(m, today) {
        SendExpiredMails(p, u, idxs[1..], today, failing);
      } else if |p.attempts| !in failing {
        var q := Pass(p.meds[idxs[0] := Marked(m, today)], p.attempts + [ExpiredAlert(u, m)], false);
        SendExpiredMails(q, u, idxs[1..], today, failing);
        assert q.attempts[|p.attempts|] == ExpiredAlert(u, m);
      } else {
        assert (p.attempts + [ExpiredAlert(u, m)])[|p.attempts|] == ExpiredAlert(u, m);
      }
    }
  }

  /** For each user: one mail of its own per expired-today medicine, then at most
      one consolidated mail, as the last one; all addressed to that user. */
  lemma AlertUserMails(p: Pass, u: User, today: Time, failing: set<nat>)
    ensures var r := AlertUser(p, u, today, failing);
      && p.attempts <= r.attempts
      && forall k :: |p.attempts| <= k < |r.attempts| ==>
           r.attempts[k].recipient == u && (r.attempts[k].SoonAlert? ==> k == |r.attempts| - 1)
  {
    var q := SendExpired(p, u, Query(p.meds, ExpiredToday, u.id, today), today, failing);
    SendExpiredMails(p, u, Query(p.meds, ExpiredToday, u.id, today), today, failing);
    var r := AlertUser(p, u, today, failing);
    if !q.aborted {
      var pending := Pending(q.meds, Query(q.meds, ExpiringSoon, u.id, today), today);
      if pending != [] {
        assert r.attempts == q.attempts + [SoonAlert(u, Listed(q.meds, pending))];
      }
    }
  }

  /** After the loop over a user's expired-today medicines completes, every
      medicine in that window carries today's stamp. */
  lemma SendExpiredStampsWindow(p: Pass, u: User, today: Time, failing: set<nat>)
    requires UniqueIds(p.meds)
    ensures var q := SendExpired(p, u, Query(p.meds, ExpiredToday, u.id, today), today, failing);
      !q.aborted ==> forall y :: 0 <= y < |q.meds| && InWindow(ExpiredToday, q.meds[y], u.id, today) ==> AlertedOn(q.meds[y], today)
  {
    var idxs := Query(p.meds, ExpiredToday, u.id, today);
    var q := SendExpired(p, u, idxs, today, failing);
    SendExpiredStamps(p, u, idxs, [u], today, failing);
    SendExpiredCovers(p, u, idxs, [u], today, failing);
    StampsKeepShape(p, q, today);
    forall y | 0 <= y < |q.meds| && InWindow(ExpiredToday, q.meds[y], u.id, today)
      ensures y in idxs
    {
      assert InWindow(ExpiredToday, p.meds[y], u.id, today);
    }
  }

  /** The consolidated mail of a user lists nothing of that user's expired-today
      window: those medicines got their own mails, and stamps, first. */
  lemma AlertUserSoonSkipsExpired(p: Pass, u: User, today: Time, failing: set<nat>)
    requires UniqueIds(p.meds)
    ensures var r := AlertUser(p, u, today, failing);
      && p.attempts <= r.attempts
      && forall k, m :: |p.attempts| <= k < |r.attempts| && r.attempts[k].SoonAlert? && m in Covered(r.attempts[k]) ==>
           !InWindow(ExpiredToday, m, u.id, today)
  {
    var idxs := Query(p.meds, ExpiredToday, u.id, today);
    var q := SendExpired(p, u, idxs, today, failing);
    SendExpiredMails(p, u, idxs, today, failing);
    if !q.aborted {
      var pending := Pending(q.meds, Query(q.meds, ExpiringSoon, u.id, today), today);
      if pending != [] {
        SendExpiredStampsWindow(p, u, today, failing);
        var listed := Listed(q.meds, pending);
        assert AlertUser(p, u, today, failing).attempts == q.attempts + [SoonAlert(u, listed)];
        forall j | 0 <= j < |listed| ensures !InWindow(ExpiredToday, listed[j], u.id, today) {
          assert listed[j] == q.meds[pending[j]];
        }
      }
    }
  }

  /** No consolidated mail of a run lists a medicine of its recipient's
      expired-today window. */
  lemma {:induction false} RunSoonSkipsExpired(p: Pass, us: seq<User>, today: Time, failing: set<nat>)
    requires UniqueIds(p.meds)
    ensures var r := Run(p, us, today, failing);
      && p.attempts <= r.attempts
      && forall k, m :: |p.attempts| <= k < |r.attempts| && r.attempts[k].SoonAlert? && m in Covered(r.attempts[k]) ==>
           !InWindow(ExpiredToday, m, r.attempts[k].recipient.id, today)
    decreases |us|
  {
    if us != [] && !p.aborted {
      var q := AlertUser(p, us[0], today, failing);
      var r := Run(q, us[1..], today, failing);
      AlertUserMails(p, us[0], today, failing);
      AlertUserSoonSkipsExpired(p, us[0], today, failing);
      AlertUserStamps(p, us[0], [us[0]], today, failing);
      StampsKeepShape(p, q, today);
      RunSoonSkipsExpired(q, us[1..], today, failing);
      assert forall k :: |p.attempts| <= k < |q.attempts| ==> r.attempts[k] == q.attempts[k];
    }
  }

  /** A medicine of user `u` that expires today and was not alerted today gets a
      mail of its own in a run that completes, and is listed in no other mail of
      that run. */
  lemma RunExpiredGetsOwnMail(meds: seq<Medicine>, sent: seq<Mail>, users: seq<User>, today: Time, failing: set<nat>, u: User, i: nat)
    requires UniqueIds(meds) && u in users && i < |meds|
    requires InWindow(ExpiredToday, meds[i], u.id, today) && !AlertedOn(meds[i], today)
    ensures var r := Run(Pass(meds, sent, false), users, today, failing);
      !r.aborted ==> exists k ::
        && |sent| <= k < |r.attempts| && k !in failing
        && r.attempts[k] == ExpiredAlert(r.attempts[k].recipient, meds[i]) && r.attempts[k].recipient.id == u.id
        && forall l :: |sent| <= l < |r.attempts| && meds[i] in Covered(r.attempts[l]) ==> l == k
  {
    var r := Run(Pass(meds, sent, false), users, today, failing);
    if !r.aborted {
      RunStampsExpired(meds, sent, users, today, failing, u, i);
      RunStampsAfterSend(meds, sent, users, today, failing);
      var k :| |sent| <= k < |r.attempts| && k !in failing && meds[i] in Covered(r.attempts[k]);
      RunExpiredMailKind(meds, sent, users, today, failing, u, meds[i]);
      RunListsOnce(meds, sent, users, today, failing, meds[i]);
    }
  }

  lemma RunStampsExpired(meds: seq<Medicine>, sent: seq<Mail>, users: seq<User>, today: Time, failing: set<nat>, u: User, i: nat)
    requires UniqueIds(meds) && u in users && i < |meds|
    requires InWindow(ExpiredToday, meds[i], u.id, today) && !AlertedOn(meds[i], today)
    ensures var r := Run(Pass(meds, sent, false), users, today, failing);
      |r.meds| == |meds| && (!r.aborted ==> r.meds[i] != meds[i])
  {
    var p := Pass(meds, sent, false);
    var r := Run(p, users, today, failing);
    RunStamps(p, users, users, today, failing);
    StampsKeepShape(p, r, today);
    RunCovers(p, users, users, today, failing);
    assert Due(r.meds[i], u.id, today);
  }

  /** A mail of the run that lists a medicine of `u`'s expired-today window is
      that medicine's own mail, to a user with `u`'s id. */
  lemma RunExpiredMailKind(meds: seq<Medicine>, sent: seq<Mail>, users: seq<User>, today: Time, failing: set<nat>, u: User, m: Medicine)
    requires UniqueIds(meds) && InWindow(ExpiredToday, m, u.id, today)
    ensures var r := Run(Pass(meds, sent, false), users, today, failing);
      && sent <= r.attempts
      && forall k :: |sent| <= k < |r.attempts| && m in Covered(r.attempts[k]) ==>
           r.attempts[k] == ExpiredAlert(r.attempts[k].recipient, m) && r.attempts[k].recipient.id == u.id
  {
    var r := Run(Pass(meds, sent, false), users, today, failing);
    RunMailsInWindow(meds, sent, users, today, failing);
    RunSoonSkipsExpired(Pass(meds, sent, false), users, today, failing);
    forall k | |sent| <= k < |r.attempts| && m in Covered(r.attempts[k])
      ensures r.attempts[k] == ExpiredAlert(r.attempts[k].recipient, m) && r.attempts[k].recipient.id == u.id
    {
      assert InWindow(KindOf(r.attempts[k]), m, r.attempts[k].recipient.id, today);
      assert InWindow(ExpiredToday, m, r.attempts[k].recipient.id, today);
    }
  }

  /** A medicine is listed in at most one mail of the run. */
  lemma RunListsOnce(meds: seq<Medicine>, sent: seq<Mail>, users: seq<User>, today: Time, failing: set<nat>, m: Medicine)
    requires UniqueIds(meds)
    ensures var r := Run(Pass(meds, sent, false), users, today, failing);
      forall k, l :: |sent| <= k < |r.attempts| && |sent| <= l < |r.attempts| && m in Covered(r.attempts[k]) && m in Covered(r.attempts[l]) ==>
        k == l
  {
    RunAtMostOnce(meds, sent, users, today, failing);
  }

  // ---------------------------------------------------------------------------
  // The pass as the source runs it: loops that send and save in place

  /** The loop over the expired-today medicines of `u` (the positions `expired`):
      each one not alerted today gets its own mail, then its stamp. */
  method AlertExpired(store: Inventory.Store, u: User, expired: seq<nat>, today: Time, mailer: Mailer) returns (ok: bool)
    requires store.Valid() && InBounds(expired, store.meds)
    modifies store`meds, mailer
    ensures store.Valid()
    ensures var r := SendExpired(Pass(old(store.meds), old(mailer.attempts), false), u, expired, today, mailer.failing);
      store.meds == r.meds && mailer.attempts == r.attempts && ok == !r.aborted
  {
    ghost var p0 := Pass(store.meds, mailer.attempts, false);
    var j := 0;
    while j < |expired|
      invariant 0 <= j <= |expired|
      invariant store.Valid() && |store.meds| == |p0.meds|
      invariant SendExpired(Pass(store.meds, mailer.attempts, false), u, expired[j..], today, mailer.failing)
             == SendExpired(p0, u, expired, today, mailer.failing)
    {
      assert expired[j..][0] == expired[j] && expired[j..][1..] == expired[j + 1..];
      var i := expired[j];
      var med := store.meds[i];
      if !AlertedOn(med, today) {
        var sent := mailer.Send(ExpiredAlert(u, med));
        if !sent {
          return false;
        }
        store.SaveAlertStamp(i, today);
      }
      j := j + 1;
    }
    ok := true;
  }

  /** `for (const med of medsToAlert) { med.lastAlertSent = today; await med.save(); }` */
  method StampAll(store: Inventory.Store, toAlert: seq<nat>, today: Time)
    requires store.Valid() && InBounds(toAlert, store.meds) && Increasing(toAlert)
    modifies store`meds
    ensures store.Valid()
    ensures store.meds == MarkAll(old(store.meds), toAlert, today)
  {
    var k := 0;
    while k < |toAlert|
      invariant 0 <= k <= |toAlert|
      invariant store.Valid() && |store.meds| == |old(store.meds)|
      invariant MarkAll(store.meds, toAlert[k..], today) == MarkAll(old(store.meds), toAlert, today)
    {
      assert toAlert[k..][0] == toAlert[k] && toAlert[k..][1..] == toAlert[k + 1..];
      store.SaveAlertStamp(toAlert[k], today);
      k := k + 1;
    }
  }

  /** The expiring-soon part for `u`: one consolidated mail when anything is
      pending, then every listed medicine is stamped. */
  method AlertSoon(store: Inventory.Store, u: User, today: Time, mailer: Mailer) returns (ok: bool)
    requires store.Valid()
    modifies store`meds, mailer
    ensures store.Valid()
    ensures var p := Pass(old(store.meds), old(mailer.attempts), false);
      var r := SendSoon(p, u, Query(p.meds, ExpiringSoon, u.id, today), today, mailer.failing);
      store.meds == r.meds && mailer.attempts == r.attempts && ok == !r.aborted
  {
    var soon := Query(store.meds, ExpiringSoon, u.id, today);
    var toAlert := Pending(store.meds, soon, today);
    if |toAlert| > 0 {
      var sent := mailer.Send(SoonAlert(u, Listed(store.meds, toAlert)));
      if !sent {
        return false;
      }
      StampAll(store, toAlert, today);
    }
    ok := true;
  }

  /** The body of the loop over users, for user `u`. */
  method AlertOwner(store: Inventory.Store, u: User, today: Time, mailer: Mailer) returns (ok: bool)
    requires store.Valid()
    modifies store`meds, mailer
    ensures store.Valid()
    ensures var r := AlertUser(Pass(old(store.meds), old(mailer.attempts), false), u, today, mailer.failing);
      store.meds == r.meds && mailer.attempts == r.attempts && ok == !r.aborted
  {
    var expired := Query(store.meds, ExpiredToday, u.id, today);
    ok := AlertExpired(store, u, expired, today, mailer);
    if ok {
      ok := AlertSoon(store, u, today, mailer);
    }
  }

  lemma RunUnfold(p: Pass, us: seq<User>, today: Time, failing: set<nat>)
    requires us != [] && !p.aborted
    ensures var q := AlertUser(p, us[0], today, failing);
      Run(p, us, today, failing) == if q.aborted then q else Run(q, us[1..], today, failing)
  {
  }

  /** `sendExpiryEmails()`: `today` is the midnight starting the day of `now`;
      the users are visited in order and the first failed send ends the run. */
  method SendExpiryEmails(store: Inventory.Store, users: seq<User>, now: Time, mailer: Mailer) returns (completed: bool)
    requires store.Valid()
    modifies store`meds, mailer
    ensures store.Valid()
    ensures var r := Run(Pass(old(store.meds), old(mailer.attempts), false), users, StartOfDay(now), mailer.failing);
      store.meds == r.meds && mailer.attempts == r.attempts && completed == !r.aborted
  {
    var today := StartOfDay(now);
    ghost var p0 := Pass(store.meds, mailer.attempts, false);
    var k := 0;
    while k < |users|
      invariant 0 <= k <= |users|
      invariant store.Valid()
      invariant Run(Pass(store.meds, mailer.attempts, false), users[k..], today, mailer.failing)
             == Run(p0, users, today, mailer.failing)
    {
      assert users[k..][0] == users[k] && users[k..][1..] == users[k + 1..];
      RunUnfold(Pass(store.meds, mailer.attempts, false), users[k..], today, mailer.failing);
      var ok := AlertOwner(store, users[k], today, mailer);
      if !ok {
        return false;
      }
      k := k + 1;
    }
    completed := true;
  }

  // ---------------------------------------------------------------------------
  // Scenarios

  /** A medicine expiring today and one expiring in ten days, neither alerted
      before: one mail, for the first only, and only the first is stamped. */
  lemma ScenarioExpiredToday(u: User, m1: Medicine, m2: Medicine)
    requires u.id == 1
    requires m1.user == 1 && m1.expiryDate == 0 && m1.lastAlertSent == None
    requires m2.user == 1 && m2.expiryDate == 10 * MsPerDay && m2.lastAlertSent == None
    ensures Run(Pass([m1, m2], [], false), [u], 0, {})
         == Pass([Marked(m1, 0), m2], [ExpiredAlert(u, m1)], false)
  {
    var p0 := Pass([m1, m2], [], false);
    var p1 := Pass([Marked(m1, 0), m2], [ExpiredAlert(u, m1)], false);
    ExpiredTodayQueries(m1, m2);
    ExpiredTodaySend(u, m1, m2);
    assert Query(p0.meds, ExpiredToday, u.id, 0) == [0];
    assert Query(p1.meds, ExpiringSoon, u.id, 0) == [];
    assert SendSoon(p1, u, [], 0, {}) == p1;
    assert AlertUser(p0, u, 0, {}) == p1;
    RunUnfold(p0, [u], 0, {});
    assert [u][1..] == [];
  }

  lemma ExpiredTodaySend(u: User, m1: Medicine, m2: Medicine)
    requires m1.lastAlertSent == None
    ensures SendExpired(Pass([m1, m2], [], false), u, [0], 0, {})
         == Pass([Marked(m1, 0), m2], [ExpiredAlert(u, m1)], false)
  {
    var p1 := Pass([Marked(m1, 0), m2], [ExpiredAlert(u, m1)], false);
    assert [m1, m2][0 := Marked(m1, 0)] == p1.meds;
    assert SendExpired(p1, u, [0][1..], 0, {}) == p1;
  }

  lemma ExpiredTodayQueries(m1: Medicine, m2: Medicine)
    requires m1.user == 1 && m1.expiryDate == 0
    requires m2.user == 1 && m2.expiryDate == 10 * MsPerDay
    ensures Query([m1, m2], ExpiredToday, 1, 0) == [0]
    ensures Query([Marked(m1, 0), m2], ExpiringSoon, 1, 0) == []
  {
    assert [m1, m2][..1] == [m1] && [m1][..0] == [];
    assert Query([m1], ExpiredToday, 1, 0) == [0];
    var q := [Marked(m1, 0), m2];
    assert q[..1] == [Marked(m1, 0)] && [Marked(m1, 0)][..0] == [];
    assert Query([Marked(m1, 0)], ExpiringSoon, 1, 0) == [];
  }

  /** Two medicines expiring in three days, neither alerted before: one
      consolidated mail listing both, and both are stamped. */
  lemma ScenarioExpiringSoon(u: User, m3: Medicine, m4: Medicine)
    requires u.id == 1
    requires m3.user == 1 && m3.expiryDate == 3 * MsPerDay && m3.lastAlertSent == None
    requires m4.user == 1 && m4.expiryDate == 3 * MsPerDay && m4.lastAlertSent == None
    ensures Run(Pass([m3, m4], [], false), [u], 0, {})
         == Pass([Marked(m3, 0), Marked(m4, 0)], [SoonAlert(u, [m3, m4])], false)
  {
    var p0 := Pass([m3, m4], [], false);
    var r := Pass([Marked(m3, 0), Marked(m4, 0)], [SoonAlert(u, [m3, m4])], false);
    SoonQueries(m3, m4);
    SoonMarks(m3, m4);
    assert Query(p0.meds, ExpiredToday, u.id, 0) == [];
    assert SendExpired(p0, u, [], 0, {}) == p0;
    assert Query(p0.meds, ExpiringSoon, u.id, 0) == [0, 1];
    assert SendSoon(p0, u, [0, 1], 0, {}) == r;
    assert AlertUser(p0, u, 0, {}) == r;
    RunUnfold(p0, [u], 0, {});
    assert [u][1..] == [];
  }

  lemma SoonQueries(m3: Medicine, m4: Medicine)
    requires m3.user == 1 && m3.expiryDate == 3 * MsPerDay && m3.lastAlertSent == None
    requires m4.user == 1 && m4.expiryDate == 3 * MsPerDay && m4.lastAlertSent == None
    ensures Query([m3, m4], ExpiredToday, 1, 0) == []
    ensures Query([m3, m4], ExpiringSoon, 1, 0) == [0, 1]
    ensures Pending([m3, m4], [0, 1], 0) == [0, 1]
  {
    var meds := [m3, m4];
    assert meds[..1] == [m3] && [m3][..0] == [];
    assert Query([m3], ExpiredToday, 1, 0) == [];
    assert Query([m3], ExpiringSoon, 1, 0) == [0];
    assert [0, 1][1..] == [1] && [1][1..] == [];
    assert Pending(meds, [1], 0) == [1];
  }

  lemma SoonMarks(m3: Medicine, m4: Medicine)
    ensures Listed([m3, m4], [0, 1]) == [m3, m4]
    ensures MarkAll([m3, m4], [0, 1], 0) == [Marked(m3, 0), Marked(m4, 0)]
  {
    var marked := MarkAll([m3, m4], [0, 1], 0);
    assert marked[0] == Marked(m3, 0) && marked[1] == Marked(m4, 0);
  }

  /** A failed send for one user ends the run before the next user is looked
      at: the second user's medicine, due today, gets no mail and no stamp. */
  lemma FailureForOneUserSkipsTheRest(a: User, b: User, ma: Medicine, mb: Medicine)
    requires a.id == 1 && b.id == 2
    requires ma.user == 1 && ma.expiryDate == 0 && ma.lastAlertSent == None
    requires mb.user == 2 && mb.expiryDate == 0 && mb.lastAlertSent == None
    ensures Run(Pass([ma, mb], [], false), [a, b], 0, {0})
         == Pass([ma, mb], [ExpiredAlert(a, ma)], true)
  {
    var p0 := Pass([ma, mb], [], false);
    var r := Pass([ma, mb], [ExpiredAlert(a, ma)], true);
    FirstUserQuery(ma, mb);
    assert Query(p0.meds, ExpiredToday, a.id, 0) == [0];
    assert SendExpired(p0, a, [0], 0, {0}) == r;
    assert AlertUser(p0, a, 0, {0}) == r;
    RunUnfold(p0, [a, b], 0, {0});
    assert Run(r, [a, b][1..], 0, {0}) == r;
  }

  lemma FirstUserQuery(ma: Medicine, mb: Medicine)
    requires ma.user == 1 && ma.expiryDate == 0
    requires mb.user == 2
    ensures Query([ma, mb], ExpiredToday, 1, 0) == [0]
  {
    assert [ma, mb][..1] == [ma] && [ma][..0] == [];
    assert Query([ma], ExpiredToday, 1, 0) == [0];
  }
}
