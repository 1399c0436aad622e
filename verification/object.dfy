/**
 * The in-memory plan object that handlers mutate. Its conditions live in an array that the
 * by-value status of the caller may share, as Go slices do.
 */
module Objects {
  import opened Types
  import opened Conditions

  /** A status passed by value: the slice header is copied, the backing array is not. */
  datatype StatusValue = StatusValue(
    conditions: array<Condition>,
    count: nat,
    latestVersion: string,
    latestHash: string,
    applying: seq<string>)

  /** What a by-value status holds once its array is read. */
  function Contents(v: StatusValue): PlanStatus
    reads v.conditions
  {
    PlanStatus(if v.count <= v.conditions.Length then v.conditions[..v.count] else [], v.latestVersion, v.latestHash, v.applying)
  }

  lemma {:induction false} UpdateAt(cs: seq<Condition>, kind: string, ch: Change, now: int, i: nat)
    requires i <= |cs| && (i < |cs| ==> cs[i].kind == kind)
    requires forall j :: 0 <= j < i ==> cs[j].kind != kind
    ensures Has(cs, kind) <==> i < |cs|
    ensures i < |cs| ==> Update(cs, kind, ch, now) == cs[i := Changed(cs[i], ch, now)]
    ensures i == |cs| ==> Update(cs, kind, ch, now) == cs + [Changed(NewCondition(kind), ch, now)]
  {
    if cs != [] && i > 0 {
      UpdateAt(cs[1..], kind, ch, now, i - 1);
    }
  }

  lemma {:induction false} UpdateAfterCreate(cs: seq<Condition>, kind: string, ch: Change, now: int)
    ensures Update(Update(cs, kind, Create, now), kind, ch, now) == Update(cs, kind, ch, now)
  {
    if cs != [] && cs[0].kind != kind { UpdateAfterCreate(cs[1..], kind, ch, now); }
  }

  /** Creating the entry first changes nothing about the outcome of a write. */
  lemma CreateThenChange(d: Draft, kind: string, ch: Change, now: int)
    requires d.attached ==> d.shared == d.mine
    ensures Edit(Edit(d, kind, Create, now), kind, ch, now) == Edit(d, kind, ch, now)
  {
    UpdateAfterCreate(d.mine, kind, ch, now);
    FindUpdate(d.mine, kind, Create, now, kind);
  }

  class PlanObject {
    var conditions: array<Condition>
    var count: nat
    var latestVersion: string
    var latestHash: string
    var applying: seq<string>

    /** The array the object was created with, which a by-value status may share. */
    ghost const original: array<Condition>

    ghost predicate Valid()
      reads this
    {
      count <= conditions.Length && (conditions == original ==> count == original.Length)
    }

    ghost function View(): seq<Condition>
      requires Valid()
      reads this, conditions
    {
      conditions[..count]
    }

    /** Both sides of the possibly shared array. */
    ghost function Sides(): Draft
      requires Valid()
      reads this, conditions, original
    {
      Draft(View(), original[..], conditions == original)
    }

    ghost function Status(): PlanStatus
      requires Valid()
      reads this, conditions
    {
      PlanStatus(View(), latestVersion, latestHash, applying)
    }

    /** `DeepCopy`: a new array of exactly the right size. */
    constructor (st: PlanStatus)
      ensures Valid() && fresh(conditions) && conditions == original
      ensures Status() == st && Sides() == NewDraft(st.conditions)
    {
      var a := new Condition[|st.conditions|](i requires 0 <= i < |st.conditions| => st.conditions[i]);
      conditions, original, count := a, a, |st.conditions|;
      latestVersion, latestHash, applying := st.latestVersion, st.latestHash, st.applying;
      new;
      assert a[..] == st.conditions;
    }

    /** `obj.Status` as an argument or a result. */
    method ByValue() returns (v: StatusValue)
      requires Valid()
      ensures v == StatusValue(conditions, count, latestVersion, latestHash, applying)
      ensures Contents(v) == Status()
    {
      v := StatusValue(conditions, count, latestVersion, latestHash, applying);
    }

    /** The loop of `findCond`. */
    method Index(kind: string) returns (i: nat)
      requires Valid()
      ensures i <= count && (i < count ==> View()[i].kind == kind)
      ensures forall j :: 0 <= j < i ==> View()[j].kind != kind
    {
      i := 0;
      while i < count && conditions[i].kind != kind
        invariant 0 <= i <= count
        invariant forall j :: 0 <= j < i ==> View()[j].kind != kind
      {
        i := i + 1;
      }
    }

    /** `append`: in place when there is room, otherwise into a larger array. */
    method Append(c: Condition)
      requires Valid()
      modifies this`conditions, this`count, conditions
      ensures Valid() && View() == old(View()) + [c]
      ensures conditions != original && (fresh(conditions) || conditions == old(conditions))
      ensures old(conditions) == original ==> unchanged(original)
    {
      if count == conditions.Length {
        var n, src := count, conditions;
        var a := new Condition[2 * n + 1](i requires 0 <= i reads src => if i < src.Length then src[i] else c);
        conditions := a;
      }
      conditions[count] := c;
      count := count + 1;
    }

    /** `findOrCreateCond`: the index of the entry, which is appended as Unknown if there is none. */
    method FindOrCreate(kind: string, ghost now: int) returns (i: nat)
      requires Valid()
      modifies this`conditions, this`count, conditions
      ensures Valid() && i < count && View()[i].kind == kind && forall j :: 0 <= j < i ==> View()[j].kind != kind
      ensures Sides() == Edit(old(Sides()), kind, Create, now)
      ensures fresh(conditions) || conditions == old(conditions)
    {
      i := Index(kind);
      UpdateAt(View(), kind, Create, now, i);
      if i == count { Append(NewCondition(kind)); }
    }

    /** One write of the condition package: find or create the entry, then change it in place. */
    method Write(kind: string, ch: Change, now: int)
      requires Valid()
      modifies this`conditions, this`count, conditions
      ensures Valid() && Sides() == Edit(old(Sides()), kind, ch, now)
      ensures fresh(conditions) || conditions == old(conditions)
    {
      ghost var d := Sides();
      var i := FindOrCreate(kind, now);
      CreateThenChange(d, kind, ch, now);
      UpdateAt(View(), kind, ch, now, i);
      conditions[i] := Changed(conditions[i], ch, now);
    }

    method Mark(kind: string, s: Truth, message: Message, reason: string, now: int)
      requires Valid()
      modifies this`conditions, this`count, conditions
      ensures Valid() && Sides() == MarkDraft(old(Sides()), kind, s, message, reason, now)
      ensures fresh(conditions) || conditions == old(conditions)
    {
      Write(kind, SetStatus(s), now);
      Write(kind, SetMessage(message), now);
      Write(kind, SetReason(reason), now);
    }

    method SetError(kind: string, reason: string, err: Option<Message>, now: int)
      requires Valid()
      modifies this`conditions, this`count, conditions
      ensures Valid() && Sides() == SetErrorDraft(old(Sides()), kind, reason, err, now)
      ensures fresh(conditions) || conditions == old(conditions)
    {
      if err.None? {
        Mark(kind, True, NO_MESSAGE, reason, now);
      } else {
        Mark(kind, False, err.value, if reason == "" then "Error" else reason, now);
      }
    }

    method Lookup(kind: string) returns (c: Option<Condition>)
      requires Valid()
      ensures c == Find(View(), kind)
    {
      var i := Index(kind);
      FindAt(View(), kind, i);
      c := if i < count then Some(conditions[i]) else None;
    }
  }

  lemma {:induction false} FindAt(cs: seq<Condition>, kind: string, i: nat)
    requires i <= |cs| && (i < |cs| ==> cs[i].kind == kind)
    requires forall j :: 0 <= j < i ==> cs[j].kind != kind
    ensures Find(cs, kind) == if i < |cs| then Some(cs[i]) else None
  {
    if cs != [] && i > 0 { FindAt(cs[1..], kind, i - 1); }
  }
}
