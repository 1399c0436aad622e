/** The condition list of a status as a value: lookups, writes, and writes through a shared array. */
module Conditions {
  import opened Types

  /** The writes of the condition package. Each first finds the entry or appends it as Unknown. */
  datatype Change = Create | SetStatus(status: Truth) | SetMessage(message: Message) | SetReason(reason: string)

  function NewCondition(kind: string): Condition { Condition(kind, Unknown, "", NO_MESSAGE, Stamp.Blank) }

  /** Only a status or message that differs moves the time stamp; a reason never does. */
  function Changed(c: Condition, ch: Change, now: int): Condition {
    match ch
    case Create => c
    case SetStatus(s) => if c.status == s then c else c.(status := s, lastUpdate := StampOf(now))
    case SetMessage(m) => if c.message == m then c else c.(message := m, lastUpdate := StampOf(now))
    case SetReason(r) => c.(reason := r)
  }

  function Find(cs: seq<Condition>, kind: string): Option<Condition> {
    if cs == [] then None
    else if cs[0].kind == kind then Some(cs[0])
    else Find(cs[1..], kind)
  }

  predicate Has(cs: seq<Condition>, kind: string) { Find(cs, kind).Some? }

  function Update(cs: seq<Condition>, kind: string, ch: Change, now: int): seq<Condition> {
    if cs == [] then [Changed(NewCondition(kind), ch, now)]
    else if cs[0].kind == kind then [Changed(cs[0], ch, now)] + cs[1..]
    else [cs[0]] + Update(cs[1..], kind, ch, now)
  }

  predicate IsTrue(cs: seq<Condition>, kind: string) { Has(cs, kind) && Find(cs, kind).value.status == True }

  predicate IsFalse(cs: seq<Condition>, kind: string) { Has(cs, kind) && Find(cs, kind).value.status == False }

  function GetReason(cs: seq<Condition>, kind: string): string {
    if Has(cs, kind) then Find(cs, kind).value.reason else ""
  }

  function GetMessage(cs: seq<Condition>, kind: string): Message {
    if Has(cs, kind) then Find(cs, kind).value.message else NO_MESSAGE
  }

  function GetLastUpdate(cs: seq<Condition>, kind: string): Stamp {
    if Has(cs, kind) then Find(cs, kind).value.lastUpdate else Stamp.Blank
  }

  /** Status, message and reason in that order: the shape of every composite write. */
  function Mark(cs: seq<Condition>, kind: string, s: Truth, message: Message, reason: string, now: int): seq<Condition> {
    var c1 := Update(cs, kind, SetStatus(s), now);
    var c2 := Update(c1, kind, SetMessage(message), now);
    Update(c2, kind, SetReason(reason), now)
  }

  function ReasonFor(reason: string, err: Option<Message>): string {
    if err.Some? && reason == "" then "Error" else reason
  }

  function SetError(cs: seq<Condition>, kind: string, reason: string, err: Option<Message>, now: int): seq<Condition> {
    Mark(cs, kind, if err.None? then True else False, if err.None? then NO_MESSAGE else err.value, ReasonFor(reason, err), now)
  }

  predicate MatchesError(cs: seq<Condition>, kind: string, reason: string, err: Option<Message>) {
    if err.None? then IsTrue(cs, kind) && GetMessage(cs, kind) == NO_MESSAGE && GetReason(cs, kind) == reason
    else IsFalse(cs, kind) && GetMessage(cs, kind) == err.value && GetReason(cs, kind) == ReasonFor(reason, err)
  }

  // ----- the list behaves as a map keyed by type -----

  function OrBlank(c: Option<Condition>, kind: string): Condition { if c.Some? then c.value else NewCondition(kind) }

  lemma {:induction false} FindUpdate(cs: seq<Condition>, kind: string, ch: Change, now: int, other: string)
    ensures Find(Update(cs, kind, ch, now), other)
            == if other == kind then Some(Changed(OrBlank(Find(cs, kind), kind), ch, now)) else Find(cs, other)
  {
    if cs != [] {
      var u := Update(cs, kind, ch, now);
      if cs[0].kind == kind {
        assert u[1..] == cs[1..];
      } else {
        FindUpdate(cs[1..], kind, ch, now, other);
        assert u[1..] == Update(cs[1..], kind, ch, now);
      }
    }
  }

  function Marked(c: Condition, s: Truth, message: Message, reason: string, now: int): Condition {
    Changed(Changed(Changed(c, SetStatus(s), now), SetMessage(message), now), SetReason(reason), now)
  }

  lemma FindMark(cs: seq<Condition>, kind: string, s: Truth, message: Message, reason: string, now: int, other: string)
    ensures Find(Mark(cs, kind, s, message, reason, now), other)
            == if other == kind then Some(Marked(OrBlank(Find(cs, kind), kind), s, message, reason, now)) else Find(cs, other)
  {
    var c1 := Update(cs, kind, SetStatus(s), now);
    var c2 := Update(c1, kind, SetMessage(message), now);
    FindUpdate(cs, kind, SetStatus(s), now, other);
    FindUpdate(cs, kind, SetStatus(s), now, kind);
    FindUpdate(c1, kind, SetMessage(message), now, other);
    FindUpdate(c1, kind, SetMessage(message), now, kind);
    FindUpdate(c2, kind, SetReason(reason), now, other);
  }

  /** The entry of this type, as a reader of the status sees it. */
  ghost predicate Shows(cs: seq<Condition>, kind: string, s: Truth, message: Message, reason: string) {
    Has(cs, kind) && var c := Find(cs, kind).value; c.status == s && c.message == message && c.reason == reason
  }

  /** Whatever was there before, `SetError` leaves the outcome, its message and its reason; an empty reason for an error reads "Error". */
  lemma SetErrorShows(cs: seq<Condition>, kind: string, reason: string, err: Option<Message>, now: int)
    ensures err.None? ==> Shows(SetError(cs, kind, reason, err, now), kind, True, NO_MESSAGE, reason)
    ensures err.Some? && reason != "" ==> Shows(SetError(cs, kind, reason, err, now), kind, False, err.value, reason)
    ensures err.Some? && reason == "" ==> Shows(SetError(cs, kind, reason, err, now), kind, False, err.value, "Error")
  {
    FindMark(cs, kind, if err.None? then True else False, if err.None? then NO_MESSAGE else err.value, ReasonFor(reason, err), now, kind);
  }

  /**
   * A write changes its own field, and sets the time stamp to the current second exactly when it changes the
   * status or the message. A missing entry counts as Unknown, blank and never stamped.
   */
  lemma StampMoves(cs: seq<Condition>, kind: string, ch: Change, now: int)
    ensures var before := if Has(cs, kind) then Find(cs, kind).value else Condition(kind, Unknown, "", Says(""), Blank);
            && Has(Update(cs, kind, ch, now), kind)
            && var after := Find(Update(cs, kind, ch, now), kind).value;
               && after.status == (if ch.SetStatus? then ch.status else before.status)
               && after.message == (if ch.SetMessage? then ch.message else before.message)
               && after.reason == (if ch.SetReason? then ch.reason else before.reason)
               && after.lastUpdate == (if after.status != before.status || after.message != before.message then At(now / SECOND)
                                       else before.lastUpdate)
  {
    FindUpdate(cs, kind, ch, now, kind);
  }

  /** Marking Complete decides its status and touches no other entry. */
  lemma MarkComplete(cs: seq<Condition>, s: Truth, message: Message, reason: string, now: int)
    ensures var m := Mark(cs, COMPLETE, s, message, reason, now);
            && Has(m, COMPLETE) && (IsTrue(m, COMPLETE) <==> s == True)
            && Find(m, VALIDATED) == Find(cs, VALIDATED) && Find(m, LATEST_RESOLVED) == Find(cs, LATEST_RESOLVED)
  {
    FindMark(cs, COMPLETE, s, message, reason, now, COMPLETE);
    FindMark(cs, COMPLETE, s, message, reason, now, VALIDATED);
    FindMark(cs, COMPLETE, s, message, reason, now, LATEST_RESOLVED);
  }

  /** A write that would not change its entry leaves the whole list, stamps included, as it was. */
  lemma {:induction false} UpdateNoop(cs: seq<Condition>, kind: string, ch: Change, now: int)
    requires Has(cs, kind) && Changed(Find(cs, kind).value, ch, now) == Find(cs, kind).value
    ensures Update(cs, kind, ch, now) == cs
  {
    if cs[0].kind != kind { UpdateNoop(cs[1..], kind, ch, now); }
  }

  lemma MarkNoop(cs: seq<Condition>, kind: string, s: Truth, message: Message, reason: string, now: int)
    requires Has(cs, kind)
    requires var c := Find(cs, kind).value; c.status == s && c.message == message && c.reason == reason
    ensures Mark(cs, kind, s, message, reason, now) == cs
  {
    UpdateNoop(cs, kind, SetStatus(s), now);
    UpdateNoop(cs, kind, SetMessage(message), now);
    UpdateNoop(cs, kind, SetReason(reason), now);
  }

  /** `MatchesError` asks exactly whether the corresponding `SetError` would write nothing, at any time. */
  lemma MatchesErrorIffNothingToWrite(cs: seq<Condition>, kind: string, reason: string, err: Option<Message>, now: int)
    ensures MatchesError(SetError(cs, kind, reason, err, now), kind, reason, err)
    ensures MatchesError(cs, kind, reason, err) <==> SetError(cs, kind, reason, err, now) == cs
  {
    var s, m := if err.None? then True else False, if err.None? then NO_MESSAGE else err.value;
    FindMark(cs, kind, s, m, ReasonFor(reason, err), now, kind);
    if MatchesError(cs, kind, reason, err) {
      MarkNoop(cs, kind, s, m, ReasonFor(reason, err), now);
    }
  }

  ghost predicate OneEntryPerType(cs: seq<Condition>) {
    forall i, j :: 0 <= i < j < |cs| ==> cs[i].kind != cs[j].kind
  }

  function AsMap(cs: seq<Condition>): map<string, Condition> {
    if cs == [] then map[] else AsMap(cs[1..])[cs[0].kind := cs[0]]
  }

  lemma {:induction false} AsMapFinds(cs: seq<Condition>, kind: string)
    ensures Find(cs, kind) == if kind in AsMap(cs) then Some(AsMap(cs)[kind]) else None
  {
    if cs != [] { AsMapFinds(cs[1..], kind); }
  }

  /** One write: the type's entry changes (or appears), every other entry stays, and no type is doubled. */
  lemma UpdateRefinesMap(cs: seq<Condition>, kind: string, ch: Change, now: int)
    requires OneEntryPerType(cs)
    ensures OneEntryPerType(Update(cs, kind, ch, now))
    ensures AsMap(Update(cs, kind, ch, now)) == AsMap(cs)[kind := Changed(OrBlank(Find(cs, kind), kind), ch, now)]
    ensures |Update(cs, kind, ch, now)| == |cs| + if Has(cs, kind) then 0 else 1
  {
    var u, m := Update(cs, kind, ch, now), AsMap(cs)[kind := Changed(OrBlank(Find(cs, kind), kind), ch, now)];
    forall k ensures (k in AsMap(u)) == (k in m) && (k in m ==> AsMap(u)[k] == m[k]) {
      FindUpdate(cs, kind, ch, now, k);
      AsMapFinds(u, k);
      AsMapFinds(cs, k);
    }
    UpdateShape(cs, kind, ch, now);
  }

  lemma {:induction false} UpdateShape(cs: seq<Condition>, kind: string, ch: Change, now: int)
    ensures var u := Update(cs, kind, ch, now);
            && |u| == |cs| + (if Has(cs, kind) then 0 else 1)
            && (forall i :: 0 <= i < |cs| ==> u[i].kind == cs[i].kind)
            && (!Has(cs, kind) ==> u[|cs|].kind == kind && forall i :: 0 <= i < |cs| ==> cs[i].kind != kind)
  {
    if cs != [] && cs[0].kind != kind {
      UpdateShape(cs[1..], kind, ch, now);
      assert Update(cs, kind, ch, now) == [cs[0]] + Update(cs[1..], kind, ch, now) && cs == [cs[0]] + cs[1..];
    }
  }

  datatype Write = Write(kind: string, change: Change, now: int)

  function RunWrites(cs: seq<Condition>, ws: seq<Write>): seq<Condition>
    decreases |ws|
  {
    if ws == [] then cs
    else RunWrites(Update(cs, ws[0].kind, ws[0].change, ws[0].now), ws[1..])
  }

  function RunOnMap(m: map<string, Condition>, ws: seq<Write>): map<string, Condition>
    decreases |ws|
  {
    if ws == [] then m
    else
      var w := ws[0];
      var before := if w.kind in m then m[w.kind] else NewCondition(w.kind);
      RunOnMap(m[w.kind := Changed(before, w.change, w.now)], ws[1..])
  }

  /** Any run of writes on the list is the same run on a map keyed by type. */
  lemma {:induction false} ListRefinesMap(cs: seq<Condition>, ws: seq<Write>)
    requires OneEntryPerType(cs)
    ensures OneEntryPerType(RunWrites(cs, ws))
    ensures AsMap(RunWrites(cs, ws)) == RunOnMap(AsMap(cs), ws)
    decreases |ws|
  {
    if ws != [] {
      UpdateRefinesMap(cs, ws[0].kind, ws[0].change, ws[0].now);
      AsMapFinds(cs, ws[0].kind);
      ListRefinesMap(Update(cs, ws[0].kind, ws[0].change, ws[0].now), ws[1..]);
    }
  }

  // ----- writing through a shared backing array -----

  /**
   * A handler edits `obj` while the caller keeps a by-value `status` whose slice
   * header points at the same array. `mine` is what `obj` sees, `shared` what
   * `status` sees; an append moves `obj` to a new array and detaches the two.
   */
  datatype Draft = Draft(mine: seq<Condition>, shared: seq<Condition>, attached: bool)

  function NewDraft(cs: seq<Condition>): Draft { Draft(cs, cs, true) }

  function Edit(d: Draft, kind: string, ch: Change, now: int): Draft {
    var mine := Update(d.mine, kind, ch, now);
    var attached := d.attached && Has(d.mine, kind);
    Draft(mine, if attached then mine else d.shared, attached)
  }

  function EditAll(d: Draft, ws: seq<Write>): Draft
    decreases |ws|
  {
    if ws == [] then d else EditAll(Edit(d, ws[0].kind, ws[0].change, ws[0].now), ws[1..])
  }

  /** The length of the longest prefix of writes that append nothing. */
  function InPlacePrefix(cs: seq<Condition>, ws: seq<Write>): (n: nat)
    ensures n <= |ws|
  {
    if ws == [] || !Has(cs, ws[0].kind) then 0 else 1 + InPlacePrefix(cs, ws[1..])
  }

  /**
   * Exactly the writes made before the first append reach the by-value status;
   * `obj` itself sees them all.
   */
  lemma {:induction false} WriteThrough(cs: seq<Condition>, ws: seq<Write>)
    ensures EditAll(NewDraft(cs), ws).mine == RunWrites(cs, ws)
    ensures EditAll(NewDraft(cs), ws).shared == RunWrites(cs, ws[..InPlacePrefix(cs, ws)])
    ensures EditAll(NewDraft(cs), ws).attached <==> InPlacePrefix(cs, ws) == |ws|
    decreases |ws|
  {
    if ws != [] {
      var w := ws[0];
      var next := Update(cs, w.kind, w.change, w.now);
      var n := InPlacePrefix(cs, ws);
      if Has(cs, w.kind) {
        WriteThrough(next, ws[1..]);
        assert Edit(NewDraft(cs), w.kind, w.change, w.now) == NewDraft(next);
        SameTypesSamePrefix(cs, next, ws[1..], w);
        assert ws[..n][1..] == ws[1..][..n - 1];
      } else {
        DetachedKeepsShared(Edit(NewDraft(cs), w.kind, w.change, w.now), ws[1..]);
      }
    }
  }

  lemma {:induction false} DetachedKeepsShared(d: Draft, ws: seq<Write>)
    requires !d.attached
    ensures EditAll(d, ws) == Draft(RunWrites(d.mine, ws), d.shared, false)
    decreases |ws|
  {
    if ws != [] { DetachedKeepsShared(Edit(d, ws[0].kind, ws[0].change, ws[0].now), ws[1..]); }
  }

  lemma {:induction false} SameTypesSamePrefix(cs: seq<Condition>, next: seq<Condition>, ws: seq<Write>, w: Write)
    requires Has(cs, w.kind) && next == Update(cs, w.kind, w.change, w.now)
    ensures InPlacePrefix(cs, ws) == InPlacePrefix(next, ws)
  {
    if ws != [] {
      FindUpdate(cs, w.kind, w.change, w.now, ws[0].kind);
      SameTypesSamePrefix(cs, next, ws[1..], w);
    }
  }

  function MarkDraft(d: Draft, kind: string, s: Truth, message: Message, reason: string, now: int): Draft {
    Edit(Edit(Edit(d, kind, SetStatus(s), now), kind, SetMessage(message), now), kind, SetReason(reason), now)
  }

  function SetErrorDraft(d: Draft, kind: string, reason: string, err: Option<Message>, now: int): Draft {
    MarkDraft(d, kind, if err.None? then True else False, if err.None? then NO_MESSAGE else err.value, ReasonFor(reason, err), now)
  }

  /** A composite write reaches the by-value status whole, or not at all. */
  lemma MarkDraftWhole(d: Draft, kind: string, s: Truth, message: Message, reason: string, now: int)
    requires d.attached ==> d.shared == d.mine
    ensures var e := MarkDraft(d, kind, s, message, reason, now);
            && e.mine == Mark(d.mine, kind, s, message, reason, now)
            && e.attached == (d.attached && Has(d.mine, kind))
            && e.shared == (if e.attached then e.mine else d.shared)
  {
    var c1 := Update(d.mine, kind, SetStatus(s), now);
    FindUpdate(d.mine, kind, SetStatus(s), now, kind);
    FindUpdate(c1, kind, SetMessage(message), now, kind);
  }
}
