/**
 A web reminder handed to the native outbox: the event it becomes is named after the visit, so
 a repeated handoff finds the event it made.
 */
module ReminderHandoff {
  import opened Options
  import opened OutboxRows
  import opened OutboxRepository

  /** A handoff with what is read for it; `proved` tells whether phone and management proof match the record row. */
  datatype Handoff = Handoff(record: string, phone: string, proved: bool, minutes: nat, snap: Snapshot, now: Time)

  function DueAt(h: Handoff): int { h.snap.version.start - 60 * h.minutes }

  predicate Accepted(h: Handoff) {
    && h.minutes in {60, 120, 1440} && h.proved
    && h.snap.version.phone == h.phone && h.snap.version.status == Confirmed && h.snap.version.start > h.now
    && DueAt(h) <= h.now <= DueAt(h) + REMINDER_GRACE
  }

  /** What a reminder is named after. */
  datatype Name = Name(record: string, version: Version, due: int)

  function NameOf(h: Handoff): Name { Name(h.record, h.snap.version, DueAt(h)) }

  /** Names are hashed; the hash is taken to be injective. */
  ghost predicate Injective(digest: Name -> string) {
    forall a, b :: digest(a) == digest(b) ==> a == b
  }

  function EventOf(h: Handoff, digest: Name -> string): Event { Event(digest(NameOf(h)), h.record, h.now) }

  function NoticeOf(h: Handoff, digest: Name -> string): Notice {
    Notice(digest(NameOf(h)), h.snap, BookingReminder, h.snap.version)
  }

  function Queue(rows: Table, h: Handoff, digest: Name -> string): Table {
    if !Accepted(h) then rows
    else
      var key := EventKey(digest(NameOf(h)));
      rows[key := QueueReminder(Fetch(rows, key), EventOf(h, digest), NoticeOf(h, digest))]
  }

  function QueueAll(rows: Table, hs: seq<Handoff>, digest: Name -> string): Table
    decreases |hs|
  {
    if hs == [] then rows else Queue(QueueAll(rows, hs[..|hs| - 1], digest), hs[|hs| - 1], digest)
  }

  /** The first accepted handoff of a name, if there is one. */
  function First(hs: seq<Handoff>, name: Name): Option<Handoff> {
    if hs == [] then None else if Accepted(hs[0]) && NameOf(hs[0]) == name then Some(hs[0]) else First(hs[1..], name)
  }

  lemma {:induction false} FirstAppend(hs: seq<Handoff>, h: Handoff, name: Name)
    ensures First(hs + [h], name) ==
      if First(hs, name).Some? then First(hs, name) else if Accepted(h) && NameOf(h) == name then Some(h) else None
  {
    if hs != [] {
      FirstAppend(hs[1..], h, name);
      assert (hs + [h])[1..] == hs[1..] + [h];
    } else {
      assert [] + [h] == [h];
    }
  }

  /** However many handoffs there are for a name, its event is the one the first accepted of them made. */
  lemma {:induction false} OneEventPerName(rows: Table, hs: seq<Handoff>, digest: Name -> string, name: Name)
    requires Injective(digest)
    ensures
      var key := EventKey(digest(name));
      var first := First(hs, name);
      Fetch(QueueAll(rows, hs, digest), key) ==
        if first.Some? then QueueReminder(Fetch(rows, key), EventOf(first.value, digest), NoticeOf(first.value, digest))
        else Fetch(rows, key)
    decreases |hs|
  {
    if hs != [] {
      var init, h := hs[..|hs| - 1], hs[|hs| - 1];
      OneEventPerName(rows, init, digest, name);
      assert hs == init + [h];
      FirstAppend(init, h, name);
    }
  }

  lemma {:induction false} OtherRowsStay(rows: Table, hs: seq<Handoff>, digest: Name -> string, key: Key)
    requires forall i :: 0 <= i < |hs| && Accepted(hs[i]) ==> key != EventKey(digest(NameOf(hs[i])))
    ensures Fetch(QueueAll(rows, hs, digest), key) == Fetch(rows, key)
    decreases |hs|
  {
    if hs != [] {
      OtherRowsStay(rows, hs[..|hs| - 1], digest, key);
    }
  }

  /**
   A handoff counts within the quarter of an hour in which its reminder is due, one, two or 24 hours
   before a confirmed visit of the same phone, and with the proof that belongs to it.
   */
  lemma AcceptedExactly(h: Handoff)
    ensures Accepted(h) <==>
      && (h.minutes == 60 || h.minutes == 120 || h.minutes == 24 * 60) && h.proved
      && h.snap.version.phone == h.phone && h.snap.version.status == Confirmed && h.now < h.snap.version.start
      && h.snap.version.start <= h.now + 60 * h.minutes <= h.snap.version.start + 900
  {
  }

  /** It is named after the visit and the instant its reminder is due at. */
  lemma NamedAfterVisit(h: Handoff)
    ensures
      var name := NameOf(h);
      name.record == h.record && name.version == h.snap.version && name.due == h.snap.version.start - 60 * h.minutes
  {
  }

  ghost predicate FirstAccepted(hs: seq<Handoff>, i: nat) {
    i < |hs| && Accepted(hs[i]) && forall j :: 0 <= j < i ==> !Accepted(hs[j])
  }

  lemma {:induction false} FirstIsFirst(hs: seq<Handoff>, name: Name, i: nat)
    requires FirstAccepted(hs, i) && NameOf(hs[i]) == name
    ensures First(hs, name) == Some(hs[i])
    decreases |hs|
  {
    if i > 0 {
      assert FirstAccepted(hs[1..], i - 1);
      FirstIsFirst(hs[1..], name, i - 1);
    }
  }

  /** Repeated handoffs of one visit make exactly one event, from the first accepted one, and touch nothing else. */
  lemma RepeatedHandoffsMakeOneEvent(rows: Table, hs: seq<Handoff>, digest: Name -> string, name: Name, i: nat,
                                     key: Key)
    requires Injective(digest)
    requires forall k :: 0 <= k < |hs| ==> NameOf(hs[k]) == name
    requires Fetch(rows, EventKey(digest(name))).kind == NoKind && FirstAccepted(hs, i)
    ensures
      var after := QueueAll(rows, hs, digest);
      var event := Fetch(after, EventKey(digest(name)));
      && event.kind == EventRow && event.state == Prepared
      && event.event == Event(digest(name), hs[i].record, hs[i].now)
      && event.notice == Some(Notice(digest(name), hs[i].snap, BookingReminder, hs[i].snap.version))
      && (key != EventKey(digest(name)) ==> Fetch(after, key) == Fetch(rows, key))
  {
    OneEventPerName(rows, hs, digest, name);
    FirstIsFirst(hs, name, i);
    if key != EventKey(digest(name)) {
      OtherRowsStay(rows, hs, digest, key);
    }
  }
}
