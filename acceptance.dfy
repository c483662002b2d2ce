/*
 * Which lines the rule parser accepts. For every line of either syntax made
 * of a known decision and fields the parser knows, the rule it builds holds
 * exactly the conditions of those fields, in the order written; writing the
 * fields out as one line and parsing that line gives the same rule; and the
 * line fits a node as long as neither side has more fields than slots.
 */
module Acceptance {
  import opened CString
  import opened Policy
  import opened Parser
  import opened ParseFacts

  /** A field before it is written out: `name=value`, or the keyword `all`. */
  datatype Field = Field(name: string, value: string) | Wild

  /** The token a field is written as. */
  function Text(f: Field): string
  {
    match f
    case Field(name, value) => name + "=" + value
    case Wild => "all"
  }

  /** The tokens of several fields, in order. */
  function Texts(fs: seq<Field>): (ts: seq<string>)
    ensures |ts| == |fs|
    ensures forall k :: 0 <= k < |fs| ==> ts[k] == Text(fs[k])
  {
    if |fs| == 0 then [] else [Text(fs[0])] + Texts(fs[1..])
  }

  /** The subject condition a named field with an accepted value stands for. */
  function SubjectOf(kind: SubjKind, f: Field, T: Tables): SubjPred
    requires f.Field? && SubjectValue(kind, f.value, T.accounts).Value?
  {
    SubjPred(kind, SubjectValue(kind, f.value, T.accounts).v)
  }

  /** Appending is associative. */
  lemma Associative<X>(a: seq<X>, b: seq<X>, c: seq<X>)
    ensures (a + b) + c == a + (b + c)
  {
  }

  /** A word that can stand on a rule line of the original syntax: no blank, no ':'. */
  predicate Plain(s: string)
  {
    ' ' !in s && ':' !in s
  }

  // ---------------------------------------------------------------------
  // The original syntax
  // ---------------------------------------------------------------------

  /** A subject field of the original syntax whose value the value check accepts. */
  predicate LegacySubject(f: Field, T: Tables)
  {
    f.Field? && '=' !in f.name && f.name in T.legacySubjects &&
    SubjectValue(T.legacySubjects[f.name], f.value, T.accounts).Value?
  }

  /** An object field of the original syntax: an object name that is not also a subject name. */
  predicate LegacyObject(f: Field, T: Tables)
  {
    f.Field? && '=' !in f.name && f.name !in T.legacySubjects && f.name in T.objects
  }

  /** Every field is a subject field with an accepted value or an object field. */
  predicate LegacyFields(fs: seq<Field>, T: Tables)
  {
    forall k :: 0 <= k < |fs| ==> LegacySubject(fs[k], T) || LegacyObject(fs[k], T)
  }

  /** The subject conditions of the fields, in order. */
  function LegacySubjects(fs: seq<Field>, T: Tables): seq<SubjPred>
    requires LegacyFields(fs, T)
  {
    if |fs| == 0 then []
    else
      (if LegacySubject(fs[0], T) then [SubjectOf(T.legacySubjects[fs[0].name], fs[0], T)] else []) +
      LegacySubjects(fs[1..], T)
  }

  /** The object conditions of the fields, in order. */
  function LegacyObjects(fs: seq<Field>, T: Tables): seq<ObjPred>
    requires LegacyFields(fs, T)
  {
    if |fs| == 0 then []
    else
      (if LegacySubject(fs[0], T) then [] else [ObjectPred(T.objects[fs[0].name], fs[0].value)]) +
      LegacyObjects(fs[1..], T)
  }

  /** The rule after one such field. */
  function LegacyNext(f: Field, r: Rule, T: Tables): Rule
    requires LegacySubject(f, T) || LegacyObject(f, T)
  {
    if LegacySubject(f, T) then r.(subjects := r.subjects + [SubjectOf(T.legacySubjects[f.name], f, T)])
    else AssignObjectSpec(r, T.objects[f.name], f.value)
  }

  /** One such field: nv_split's loop finds room for it, fills its slot and goes on. */
  lemma LegacyStep(ts: seq<string>, f: Field, r: Rule, T: Tables)
    requires |ts| > 0 && ts[0] == Text(f)
    requires LegacySubject(f, T) || LegacyObject(f, T)
    ensures LeadStep(ts[0], r, false, T) == Next(LegacyNext(f, r, T))
    ensures LeadLoop(ts, r, false, T) == LeadLoop(ts[1..], LegacyNext(f, r, T), false, T)
  {
    if LegacySubject(f, T) {
      LegacySubjectField(f.name, f.value, r, T);
    } else {
      LegacyObjectField(f.name, f.value, r, T);
    }
    LeadLoopUnfold(ts, r, false, T);
  }

  /** One such field fits when its slot is free and the rest fit. */
  lemma LegacyStepFits(ts: seq<string>, f: Field, r: Rule, T: Tables)
    requires |ts| > 0 && ts[0] == Text(f)
    requires LegacySubject(f, T) || LegacyObject(f, T)
    requires LegacySubject(f, T) ==> |r.subjects| < MAX_FIELDS
    requires LegacyObject(f, T) ==> |r.objects| < MAX_FIELDS
    requires LeadLoopFits(ts[1..], LegacyNext(f, r, T), false, T)
    ensures LeadLoopFits(ts, r, false, T)
  {
    IndexOfField(f.name, f.value);
    if LegacySubject(f, T) {
      LegacySubjectField(f.name, f.value, r, T);
    } else {
      LegacyObjectField(f.name, f.value, r, T);
    }
  }

  /** The fields after the first one are of the same kind. */
  lemma LegacyTail(fs: seq<Field>, T: Tables)
    requires |fs| > 0 && LegacyFields(fs, T)
    ensures LegacySubject(fs[0], T) || LegacyObject(fs[0], T)
    ensures LegacyFields(fs[1..], T)
    ensures Texts(fs)[1..] == Texts(fs[1..])
    ensures LegacySubjects(fs, T) == (if LegacySubject(fs[0], T) then [SubjectOf(T.legacySubjects[fs[0].name], fs[0], T)] else []) + LegacySubjects(fs[1..], T)
    ensures LegacyObjects(fs, T) == (if LegacySubject(fs[0], T) then [] else [ObjectPred(T.objects[fs[0].name], fs[0].value)]) + LegacyObjects(fs[1..], T)
  {
    assert forall k :: 0 <= k < |fs[1..]| ==> fs[1..][k] == fs[k + 1];
  }

  /** The slots after the first field add up to the slots of all of them. */
  lemma LegacyAccumulate(fs: seq<Field>, r: Rule, T: Tables)
    requires |fs| > 0 && LegacyFields(fs, T)
    ensures LegacyFields(fs[1..], T)
    ensures var r' := LegacyNext(fs[0], r, T);
      r'.(subjects := r'.subjects + LegacySubjects(fs[1..], T), objects := r'.objects + LegacyObjects(fs[1..], T)) ==
      r.(subjects := r.subjects + LegacySubjects(fs, T), objects := r.objects + LegacyObjects(fs, T))
  {
    LegacyTail(fs, T);
    var r' := LegacyNext(fs[0], r, T);
    if LegacySubject(fs[0], T) {
      var p := SubjectOf(T.legacySubjects[fs[0].name], fs[0], T);
      assert r'.subjects == r.subjects + [p] && r'.objects == r.objects;
      Associative(r.subjects, [p], LegacySubjects(fs[1..], T));
      assert LegacyObjects(fs, T) == LegacyObjects(fs[1..], T);
    } else {
      var p := ObjectPred(T.objects[fs[0].name], fs[0].value);
      assert r'.objects == r.objects + [p] && r'.subjects == r.subjects;
      Associative(r.objects, [p], LegacyObjects(fs[1..], T));
      assert LegacySubjects(fs, T) == LegacySubjects(fs[1..], T);
    }
  }

  /** nv_split's loop over such fields appends their conditions and reaches finish_up. */
  lemma {:induction false} LegacyRun(fs: seq<Field>, r: Rule, T: Tables)
    requires LegacyFields(fs, T)
    ensures LeadLoop(Texts(fs), r, false, T) ==
      Finish(r.(subjects := r.subjects + LegacySubjects(fs, T), objects := r.objects + LegacyObjects(fs, T)))
    decreases |fs|
  {
    if |fs| > 0 {
      LegacyTail(fs, T);
      var r' := LegacyNext(fs[0], r, T);
      LegacyStep(Texts(fs), fs[0], r, T);
      LegacyRun(fs[1..], r', T);
      LegacyAccumulate(fs, r, T);
    }
  }

  /**
   * A line of the original syntax made of a known decision and such fields,
   * with at least one subject and one object among them, is accepted: the
   * rule holds exactly the fields' conditions, subjects and objects each in
   * the order written, with open access.
   */
  lemma LegacyLineAccepted(dec: string, fs: seq<Field>, T: Tables)
    requires |dec| > 0 && dec[0] != '#' && dec in T.decisions
    requires LegacyFields(fs, T)
    requires |LegacySubjects(fs, T)| > 0 && |LegacyObjects(fs, T)| > 0
    ensures ParseTokens([dec] + Texts(fs), false, T) ==
      Ok(Rule(0, T.decisions[dec], OpenAcc, FmtOrig, LegacySubjects(fs, T), LegacyObjects(fs, T)))
  {
    var toks := [dec] + Texts(fs);
    assert toks[1..] == Texts(fs);
    LegacyRun(fs, Start(dec, false, T), T);
    ParseDecided(toks, false, T);
  }

  /**
   * Writing such a line out with blanks between its words and parsing it
   * back gives the same rule, when no word holds a blank or a ':'.
   */
  lemma LegacyLineRoundTrip(dec: string, fs: seq<Field>, T: Tables)
    requires |dec| > 0 && dec[0] != '#' && dec in T.decisions
    requires LegacyFields(fs, T)
    requires |LegacySubjects(fs, T)| > 0 && |LegacyObjects(fs, T)| > 0
    requires Plain(dec) && forall k :: 0 <= k < |fs| ==> Plain(Text(fs[k]))
    ensures Parse(Join([dec] + Texts(fs)), T) ==
      Ok(Rule(0, T.decisions[dec], OpenAcc, FmtOrig, LegacySubjects(fs, T), LegacyObjects(fs, T)))
  {
    var toks := [dec] + Texts(fs);
    forall k | 0 <= k < |toks|
      ensures |toks[k]| > 0 && ' ' !in toks[k] && ':' !in toks[k]
    {
      if k > 0 {
        assert toks[k] == Text(fs[k - 1]);
      }
    }
    TokensOfJoin(toks);
    NotInJoin(toks, ':');
    LegacyLineAccepted(dec, fs, T);
  }

  /** Such fields find room as long as the slots they fill on each side fit. */
  lemma {:induction false} LegacyRunFits(fs: seq<Field>, r: Rule, T: Tables)
    requires LegacyFields(fs, T)
    requires |r.subjects| + |LegacySubjects(fs, T)| <= MAX_FIELDS
    requires |r.objects| + |LegacyObjects(fs, T)| <= MAX_FIELDS
    ensures LeadLoopFits(Texts(fs), r, false, T)
    decreases |fs|
  {
    if |fs| > 0 {
      LegacyTail(fs, T);
      LegacyRunFits(fs[1..], LegacyNext(fs[0], r, T), T);
      LegacyStepFits(Texts(fs), fs[0], r, T);
    }
  }

  /** Such a line never overflows a node when each side has at most MAX_FIELDS fields. */
  lemma LegacyLineFits(dec: string, fs: seq<Field>, T: Tables)
    requires |dec| > 0 && dec[0] != '#' && dec in T.decisions
    requires LegacyFields(fs, T)
    requires |LegacySubjects(fs, T)| <= MAX_FIELDS && |LegacyObjects(fs, T)| <= MAX_FIELDS
    ensures Fits([dec] + Texts(fs), false, T)
  {
    var toks := [dec] + Texts(fs);
    assert toks[1..] == Texts(fs);
    LegacyRunFits(fs, Start(dec, false, T), T);
  }

  // ---------------------------------------------------------------------
  // The colon syntax
  // ---------------------------------------------------------------------

  /** A subject field of the colon syntax: `all`, or a subject name with a value the value check accepts. */
  predicate ColonSubject(f: Field, T: Tables)
  {
    f.Wild? ||
    ('=' !in f.name && f.name in T.colonSubjects &&
     SubjectValue(T.colonSubjects[f.name], f.value, T.accounts).Value?)
  }

  /** An object field of the colon syntax: `all`, or an object name. */
  predicate ColonObject(f: Field, T: Tables)
  {
    f.Wild? || ('=' !in f.name && f.name in T.objects)
  }

  /** The subject condition of a colon-syntax subject field; `all` is the subject wildcard. */
  function ColonSubjectOf(f: Field, T: Tables): SubjPred
    requires ColonSubject(f, T)
  {
    if f.Wild? then SubjPred(AllSubj, Unset) else SubjectOf(T.colonSubjects[f.name], f, T)
  }

  /** The object condition of a colon-syntax object field; `all` is the object wildcard. */
  function ColonObjectOf(f: Field, T: Tables): ObjPred
    requires ColonObject(f, T)
  {
    if f.Wild? then ObjPred(AllObj, "", 0) else ObjectPred(T.objects[f.name], f.value)
  }

  /** The subject conditions of colon-syntax subject fields, in order. */
  function ColonSubjects(ss: seq<Field>, T: Tables): (ps: seq<SubjPred>)
    requires forall k :: 0 <= k < |ss| ==> ColonSubject(ss[k], T)
    ensures |ps| == |ss|
  {
    if |ss| == 0 then []
    else
      assert ColonSubject(ss[0], T);
      [ColonSubjectOf(ss[0], T)] + ColonSubjects(ss[1..], T)
  }

  /** The object conditions of colon-syntax object fields, in order. */
  function ColonObjects(os: seq<Field>, T: Tables): (ps: seq<ObjPred>)
    requires forall k :: 0 <= k < |os| ==> ColonObject(os[k], T)
    ensures |ps| == |os|
  {
    if |os| == 0 then []
    else
      assert ColonObject(os[0], T);
      [ColonObjectOf(os[0], T)] + ColonObjects(os[1..], T)
  }

  /** The fields after the first one are of the same kind. */
  lemma TailFields(fs: seq<Field>, T: Tables, colonObjects: bool)
    requires |fs| > 0
    requires !colonObjects ==> forall k :: 0 <= k < |fs| ==> ColonSubject(fs[k], T)
    requires colonObjects ==> forall k :: 0 <= k < |fs| ==> ColonObject(fs[k], T)
    ensures !colonObjects ==> ColonSubject(fs[0], T) && forall k :: 0 <= k < |fs[1..]| ==> ColonSubject(fs[1..][k], T)
    ensures colonObjects ==> ColonObject(fs[0], T) && forall k :: 0 <= k < |fs[1..]| ==> ColonObject(fs[1..][k], T)
  {
    assert forall k :: 0 <= k < |fs[1..]| ==> fs[1..][k] == fs[k + 1];
  }

  /** The rule after one colon-syntax subject field. */
  function ColonNext(f: Field, r: Rule, T: Tables): Rule
    requires ColonSubject(f, T)
  {
    r.(subjects := r.subjects + [ColonSubjectOf(f, T)])
  }

  /** The rule after one colon-syntax object field. */
  function ColonObjectNext(f: Field, r: Rule, T: Tables): Rule
    requires ColonObject(f, T)
  {
    r.(objects := r.objects + [ColonObjectOf(f, T)])
  }

  /** One colon-syntax subject field: parse_new_format fills its slot and goes on. */
  lemma ColonSubjectStep(ts: seq<string>, f: Field, r: Rule, T: Tables)
    requires |ts| > 0 && ts[0] == Text(f) && ColonSubject(f, T)
    ensures NewFormatStep(ts[0], r, false, T) == Go(ColonNext(f, r, T), false)
    ensures NewFormat(ts, r, false, T) == NewFormat(ts[1..], ColonNext(f, r, T), false, T)
  {
    if f.Wild? {
      AllField(r, false, T);
    } else {
      ColonSubjectField(f.name, f.value, r, T);
    }
    NewFormatUnfold(ts, r, false, T);
  }

  /** One colon-syntax subject field fits when its slot is free and the rest fit. */
  lemma ColonSubjectStepFits(ts: seq<string>, f: Field, r: Rule, T: Tables)
    requires |ts| > 0 && ts[0] == Text(f) && ColonSubject(f, T)
    requires |r.subjects| < MAX_FIELDS
    requires NewFormatFits(ts[1..], ColonNext(f, r, T), false, T)
    ensures NewFormatFits(ts, r, false, T)
  {
    if f.Wild? {
      AllField(r, false, T);
    } else {
      IndexOfField(f.name, f.value);
      ColonSubjectField(f.name, f.value, r, T);
    }
  }

  /** One colon-syntax object field: parse_new_format fills its slot and goes on. */
  lemma ColonObjectStep(ts: seq<string>, f: Field, r: Rule, T: Tables)
    requires |ts| > 0 && ts[0] == Text(f) && ColonObject(f, T)
    ensures NewFormatStep(ts[0], r, true, T) == Go(ColonObjectNext(f, r, T), true)
    ensures NewFormat(ts, r, true, T) == NewFormat(ts[1..], ColonObjectNext(f, r, T), true, T)
  {
    if f.Wild? {
      AllField(r, true, T);
    } else {
      ColonObjectField(f.name, f.value, r, T);
    }
    NewFormatUnfold(ts, r, true, T);
  }

  /** One colon-syntax object field fits when its slot is free and the rest fit. */
  lemma ColonObjectStepFits(ts: seq<string>, f: Field, r: Rule, T: Tables)
    requires |ts| > 0 && ts[0] == Text(f) && ColonObject(f, T)
    requires |r.objects| < MAX_FIELDS
    requires NewFormatFits(ts[1..], ColonObjectNext(f, r, T), true, T)
    ensures NewFormatFits(ts, r, true, T)
  {
    if f.Wild? {
      AllField(r, true, T);
    } else {
      IndexOfField(f.name, f.value);
      ColonObjectField(f.name, f.value, r, T);
    }
  }

  /** The words of the fields followed by `tail`, one field at a time. */
  lemma TextsTail(fs: seq<Field>, tail: seq<string>)
    requires |fs| > 0
    ensures |Texts(fs) + tail| > 0 && (Texts(fs) + tail)[0] == Text(fs[0])
    ensures (Texts(fs) + tail)[1..] == Texts(fs[1..]) + tail
  {
    var t := Texts(fs);
    assert t[1..] == Texts(fs[1..]) by {
      assert t == [Text(fs[0])] + Texts(fs[1..]);
    }
    DropFirst(t, tail);
  }

  /** Dropping the first element of a concatenation whose left part is not empty. */
  lemma DropFirst<X>(a: seq<X>, b: seq<X>)
    requires |a| > 0
    ensures (a + b)[0] == a[0] && (a + b)[1..] == a[1..] + b
  {
  }

  /** parse_new_format over subject fields appends their conditions and goes on with what follows. */
  lemma {:induction false} ColonSubjectRun(ss: seq<Field>, tail: seq<string>, r: Rule, T: Tables)
    requires forall k :: 0 <= k < |ss| ==> ColonSubject(ss[k], T)
    ensures NewFormat(Texts(ss) + tail, r, false, T) ==
      NewFormat(tail, r.(subjects := r.subjects + ColonSubjects(ss, T)), false, T)
    decreases |ss|
  {
    if |ss| == 0 {
      assert Texts(ss) + tail == tail;
      assert r.(subjects := r.subjects + ColonSubjects(ss, T)) == r;
    } else {
      TailFields(ss, T, false);
      TextsTail(ss, tail);
      var r' := ColonNext(ss[0], r, T);
      ColonSubjectStep(Texts(ss) + tail, ss[0], r, T);
      ColonSubjectRun(ss[1..], tail, r', T);
      Associative(r.subjects, [ColonSubjectOf(ss[0], T)], ColonSubjects(ss[1..], T));
    }
  }

  /** parse_new_format over object fields appends their conditions and returns 0. */
  lemma {:induction false} ColonObjectRun(os: seq<Field>, r: Rule, T: Tables)
    requires forall k :: 0 <= k < |os| ==> ColonObject(os[k], T)
    ensures NewFormat(Texts(os), r, true, T) == (Returned(0), r.(objects := r.objects + ColonObjects(os, T)))
    decreases |os|
  {
    if |os| == 0 {
      assert r.(objects := r.objects + ColonObjects(os, T)) == r;
    } else {
      TailFields(os, T, true);
      TextsTail(os, []);
      assert Texts(os) + [] == Texts(os) && Texts(os[1..]) + [] == Texts(os[1..]);
      var r' := ColonObjectNext(os[0], r, T);
      ColonObjectStep(Texts(os), os[0], r, T);
      ColonObjectRun(os[1..], r', T);
      Associative(r.objects, [ColonObjectOf(os[0], T)], ColonObjects(os[1..], T));
    }
  }

  /** From the ':' on, parse_new_format fills the object slots and returns 0. */
  lemma ColonObjectSide(os: seq<Field>, r: Rule, T: Tables)
    requires forall k :: 0 <= k < |os| ==> ColonObject(os[k], T)
    ensures NewFormat([":"] + Texts(os), r, false, T) == (Returned(0), r.(objects := r.objects + ColonObjects(os, T)))
  {
    var tail := [":"] + Texts(os);
    assert tail[0] == ":" && tail[1..] == Texts(os);
    NewFormatUnfold(tail, r, false, T);
    BareField(":", r, true, T);
    ColonObjectRun(os, r, T);
  }

  /** The first named subject field of a colon-syntax line hands the rest of the line to parse_new_format. */
  lemma ColonFirstField(rest: seq<string>, f: Field, r: Rule, T: Tables)
    requires |rest| > 0 && rest[0] == Text(f) && f.Field? && ColonSubject(f, T) && f.name != "perm"
    ensures LeadStep(rest[0], r, true, T) == HandOff(ColonNext(f, r, T))
    ensures LeadLoop(rest, r, true, T) ==
      if NewFormat(rest[1..], ColonNext(f, r, T), false, T).0.Exited?
      then Stopped(NewFormat(rest[1..], ColonNext(f, r, T), false, T).0)
      else Finish(NewFormat(rest[1..], ColonNext(f, r, T), false, T).1)
  {
    ColonSubjectField(f.name, f.value, r, T);
    LeadLoopUnfold(rest, r, true, T);
  }

  /**
   * How the subject fields of a colon-syntax line without `perm=` may open
   * so that nv_split's own loop hands the line to parse_new_format with
   * every one of them in place: a named field other than `perm`, or one
   * `all` followed by such a field.
   */
  predicate ColonLeads(ss: seq<Field>)
  {
    |ss| > 0 &&
    ((ss[0].Field? && ss[0].name != "perm") ||
     (|ss| > 1 && ss[0].Wild? && ss[1].Field? && ss[1].name != "perm"))
  }

  /**
   * A named subject field other than `perm` read by nv_split's own loop
   * hands the line to parse_new_format; the line then ends where
   * parse_new_format ends on what follows the subject fields, with all of
   * their conditions appended.
   */
  lemma NamedLeadIn(ss: seq<Field>, tail: seq<string>, r: Rule, T: Tables)
    requires |ss| > 0 && ss[0].Field? && ss[0].name != "perm"
    requires forall k :: 0 <= k < |ss| ==> ColonSubject(ss[k], T)
    ensures LeadLoop(Texts(ss) + tail, r, true, T) ==
      var n := NewFormat(tail, r.(subjects := r.subjects + ColonSubjects(ss, T)), false, T);
      if n.0.Exited? then Stopped(n.0) else Finish(n.1)
  {
    TailFields(ss, T, false);
    TextsTail(ss, tail);
    var r1 := ColonNext(ss[0], r, T);
    ColonFirstField(Texts(ss) + tail, ss[0], r, T);
    ColonSubjectRun(ss[1..], tail, r1, T);
    Associative(r.subjects, [ColonSubjectOf(ss[0], T)], ColonSubjects(ss[1..], T));
  }

  /**
   * nv_split's own loop reads the opening `all`, if any, and the first named
   * subject field of a fresh rule, then hands over; the line then ends where
   * parse_new_format ends on what follows the subject fields, with all of
   * their conditions in place.
   */
  lemma ColonLeadIn(ss: seq<Field>, tail: seq<string>, r: Rule, T: Tables)
    requires ColonLeads(ss) && forall k :: 0 <= k < |ss| ==> ColonSubject(ss[k], T)
    requires r.subjects == [] && r.objects == []
    ensures LeadLoop(Texts(ss) + tail, r, true, T) ==
      var n := NewFormat(tail, r.(subjects := ColonSubjects(ss, T)), false, T);
      if n.0.Exited? then Stopped(n.0) else Finish(n.1)
  {
    if ss[0].Field? && ss[0].name != "perm" {
      NamedLeadIn(ss, tail, r, T);
      assert r.subjects + ColonSubjects(ss, T) == ColonSubjects(ss, T);
    } else {
      var r1 := r.(subjects := [SubjPred(AllSubj, Unset)]);
      TailFields(ss, T, false);
      TextsTail(ss, tail);
      assert LeadLoop(Texts(ss) + tail, r, true, T) == LeadLoop(Texts(ss[1..]) + tail, r1, true, T) by {
        AllField(r, true, T);
        LeadLoopUnfold(Texts(ss) + tail, r, true, T);
      }
      NamedLeadIn(ss[1..], tail, r1, T);
      assert r1.subjects + ColonSubjects(ss[1..], T) == ColonSubjects(ss, T);
    }
  }

  /** The tokens of a colon-syntax line: decision, subject fields, ':', object fields. */
  function ColonLine(dec: string, ss: seq<Field>, os: seq<Field>): seq<string>
  {
    [dec] + Texts(ss) + [":"] + Texts(os)
  }

  /** The decision opens the line and the subject fields follow it. */
  lemma ColonLineShape(dec: string, ss: seq<Field>, os: seq<Field>)
    ensures |ColonLine(dec, ss, os)| > 0 && ColonLine(dec, ss, os)[0] == dec
    ensures ColonLine(dec, ss, os)[1..] == Texts(ss) + ([":"] + Texts(os))
  {
    assert ColonLine(dec, ss, os) == [dec] + (Texts(ss) + ([":"] + Texts(os)));
  }

  /**
   * A colon-syntax line made of a known decision, subject fields (`all` or
   * a subject name with an accepted value, opening as ColonLeads says), a
   * ':' and object fields (`all` or an object name), with at least one
   * field on each side, is accepted: the rule holds exactly those
   * conditions, each side in the order written, with open access.
   */
  lemma ColonLineAccepted(dec: string, ss: seq<Field>, os: seq<Field>, T: Tables)
    requires |dec| > 0 && dec[0] != '#' && dec in T.decisions
    requires ColonLeads(ss) && forall k :: 0 <= k < |ss| ==> ColonSubject(ss[k], T)
    requires |os| > 0 && forall k :: 0 <= k < |os| ==> ColonObject(os[k], T)
    ensures ParseTokens(ColonLine(dec, ss, os), true, T) ==
      Ok(Rule(0, T.decisions[dec], OpenAcc, FmtColon, ColonSubjects(ss, T), ColonObjects(os, T)))
  {
    var toks := ColonLine(dec, ss, os);
    var r0 := Start(dec, true, T);
    var r2 := r0.(subjects := ColonSubjects(ss, T));
    ColonLineShape(dec, ss, os);
    ColonLeadIn(ss, [":"] + Texts(os), r0, T);
    ColonObjectSide(os, r2, T);
    assert r2.(objects := r2.objects + ColonObjects(os, T)) ==
      Rule(0, T.decisions[dec], OpenAcc, FmtColon, ColonSubjects(ss, T), ColonObjects(os, T));
    ParseDecided(toks, true, T);
  }

  /** The words of a colon-syntax line are not empty, hold no blank when its fields hold none, and one is ':'. */
  lemma ColonLineWords(dec: string, ss: seq<Field>, os: seq<Field>)
    requires |dec| > 0 && ' ' !in dec
    requires forall k :: 0 <= k < |ss| ==> ' ' !in Text(ss[k])
    requires forall k :: 0 <= k < |os| ==> ' ' !in Text(os[k])
    ensures forall k :: 0 <= k < |ColonLine(dec, ss, os)| ==> |ColonLine(dec, ss, os)[k]| > 0 && ' ' !in ColonLine(dec, ss, os)[k]
    ensures ':' in Join(ColonLine(dec, ss, os))
  {
    var toks := ColonLine(dec, ss, os);
    var c := 1 + |ss|;
    assert |toks| == |os| + c + 1;
    forall k | 0 <= k < |toks|
      ensures |toks[k]| > 0 && ' ' !in toks[k]
    {
      if 0 < k < c {
        assert toks[k] == Text(ss[k - 1]);
      } else if k > c {
        assert toks[k] == Text(os[k - c - 1]);
      }
    }
    assert toks[c] == ":";
    InJoin(toks, c, ':');
  }

  /**
   * Writing such a line out with blanks between its words and parsing it
   * back gives the same rule, when no word holds a blank; the ':' between
   * the sides selects the colon syntax, so values may hold ':' too.
   */
  lemma ColonLineRoundTrip(dec: string, ss: seq<Field>, os: seq<Field>, T: Tables)
    requires |dec| > 0 && dec[0] != '#' && dec in T.decisions
    requires ColonLeads(ss) && forall k :: 0 <= k < |ss| ==> ColonSubject(ss[k], T)
    requires |os| > 0 && forall k :: 0 <= k < |os| ==> ColonObject(os[k], T)
    requires ' ' !in dec
    requires forall k :: 0 <= k < |ss| ==> ' ' !in Text(ss[k])
    requires forall k :: 0 <= k < |os| ==> ' ' !in Text(os[k])
    ensures Parse(Join(ColonLine(dec, ss, os)), T) ==
      Ok(Rule(0, T.decisions[dec], OpenAcc, FmtColon, ColonSubjects(ss, T), ColonObjects(os, T)))
  {
    ColonLineWords(dec, ss, os);
    TokensOfJoin(ColonLine(dec, ss, os));
    ColonLineAccepted(dec, ss, os, T);
  }

  /** Subject fields find room while the subject slots they fill fit. */
  lemma {:induction false} ColonSubjectRunFits(ss: seq<Field>, tail: seq<string>, r: Rule, T: Tables)
    requires forall k :: 0 <= k < |ss| ==> ColonSubject(ss[k], T)
    requires |r.subjects| + |ss| <= MAX_FIELDS
    requires NewFormatFits(tail, r.(subjects := r.subjects + ColonSubjects(ss, T)), false, T)
    ensures NewFormatFits(Texts(ss) + tail, r, false, T)
    decreases |ss|
  {
    if |ss| == 0 {
      assert Texts(ss) + tail == tail;
      assert r.(subjects := r.subjects + ColonSubjects(ss, T)) == r;
    } else {
      TailFields(ss, T, false);
      TextsTail(ss, tail);
      var r' := ColonNext(ss[0], r, T);
      Associative(r.subjects, [ColonSubjectOf(ss[0], T)], ColonSubjects(ss[1..], T));
      ColonSubjectRunFits(ss[1..], tail, r', T);
      ColonSubjectStepFits(Texts(ss) + tail, ss[0], r, T);
    }
  }

  /** Object fields find room while the object slots they fill fit. */
  lemma {:induction false} ColonObjectRunFits(os: seq<Field>, r: Rule, T: Tables)
    requires forall k :: 0 <= k < |os| ==> ColonObject(os[k], T)
    requires |r.objects| + |os| <= MAX_FIELDS
    ensures NewFormatFits(Texts(os), r, true, T)
    decreases |os|
  {
    if |os| > 0 {
      TailFields(os, T, true);
      TextsTail(os, []);
      assert Texts(os) + [] == Texts(os) && Texts(os[1..]) + [] == Texts(os[1..]);
      ColonObjectRunFits(os[1..], ColonObjectNext(os[0], r, T), T);
      ColonObjectStepFits(Texts(os), os[0], r, T);
    }
  }

  /** From the ':' on, the object fields find room while they fit. */
  lemma ColonObjectSideFits(os: seq<Field>, r: Rule, T: Tables)
    requires forall k :: 0 <= k < |os| ==> ColonObject(os[k], T)
    requires |r.objects| + |os| <= MAX_FIELDS
    ensures NewFormatFits([":"] + Texts(os), r, false, T)
  {
    var tail := [":"] + Texts(os);
    assert tail[0] == ":" && tail[1..] == Texts(os);
    BareField(":", r, true, T);
    ColonObjectRunFits(os, r, T);
  }

  /** The fields of NamedLeadIn find room while the subject slots they fill fit. */
  lemma NamedLeadInFits(ss: seq<Field>, tail: seq<string>, r: Rule, T: Tables)
    requires |ss| > 0 && ss[0].Field? && ss[0].name != "perm"
    requires forall k :: 0 <= k < |ss| ==> ColonSubject(ss[k], T)
    requires |r.subjects| + |ss| <= MAX_FIELDS
    requires NewFormatFits(tail, r.(subjects := r.subjects + ColonSubjects(ss, T)), false, T)
    ensures LeadLoopFits(Texts(ss) + tail, r, true, T)
  {
    TailFields(ss, T, false);
    TextsTail(ss, tail);
    var r1 := ColonNext(ss[0], r, T);
    assert NewFormatFits(Texts(ss[1..]) + tail, r1, false, T) by {
      Associative(r.subjects, [ColonSubjectOf(ss[0], T)], ColonSubjects(ss[1..], T));
      ColonSubjectRunFits(ss[1..], tail, r1, T);
    }
    IndexOfField(ss[0].name, ss[0].value);
    ColonFirstField(Texts(ss) + tail, ss[0], r, T);
  }

  /** The opening subject fields of ColonLeadIn find room while the subject slots fit. */
  lemma ColonLeadInFits(ss: seq<Field>, tail: seq<string>, r: Rule, T: Tables)
    requires ColonLeads(ss) && forall k :: 0 <= k < |ss| ==> ColonSubject(ss[k], T)
    requires r.subjects == [] && r.objects == [] && |ss| <= MAX_FIELDS
    requires NewFormatFits(tail, r.(subjects := ColonSubjects(ss, T)), false, T)
    ensures LeadLoopFits(Texts(ss) + tail, r, true, T)
  {
    if ss[0].Field? && ss[0].name != "perm" {
      assert r.subjects + ColonSubjects(ss, T) == ColonSubjects(ss, T);
      NamedLeadInFits(ss, tail, r, T);
    } else {
      var r1 := r.(subjects := [SubjPred(AllSubj, Unset)]);
      TailFields(ss, T, false);
      TextsTail(ss, tail);
      assert LeadLoopFits(Texts(ss[1..]) + tail, r1, true, T) by {
        assert r1.subjects + ColonSubjects(ss[1..], T) == ColonSubjects(ss, T);
        NamedLeadInFits(ss[1..], tail, r1, T);
      }
      AllField(r, true, T);
    }
  }

  /**
   * Such a line never overflows a node when each side has at most
   * MAX_FIELDS fields, however many fields the line has in all.
   */
  lemma ColonLineFits(dec: string, ss: seq<Field>, os: seq<Field>, T: Tables)
    requires |dec| > 0 && dec[0] != '#' && dec in T.decisions
    requires ColonLeads(ss) && forall k :: 0 <= k < |ss| ==> ColonSubject(ss[k], T)
    requires forall k :: 0 <= k < |os| ==> ColonObject(os[k], T)
    requires |ss| <= MAX_FIELDS && |os| <= MAX_FIELDS
    ensures Fits(ColonLine(dec, ss, os), true, T)
  {
    var r0 := Start(dec, true, T);
    ColonLineShape(dec, ss, os);
    ColonObjectSideFits(os, r0.(subjects := ColonSubjects(ss, T)), T);
    ColonLeadInFits(ss, [":"] + Texts(os), r0, T);
  }

  // ---------------------------------------------------------------------
  // Colon-syntax lines led by `perm=`
  // ---------------------------------------------------------------------

  /** The access kind a `perm=` value sets: `execute`, `any`, and otherwise the default. */
  function PermAccess(v: string): Access
  {
    if v == "execute" then ExecAcc else if v == "any" then AnyAcc else OpenAcc
  }

  /** The tokens of a colon-syntax line led by `perm=v`. */
  function ColonPermLine(dec: string, v: string, ss: seq<Field>, os: seq<Field>): seq<string>
  {
    [dec, "perm" + "=" + v] + Texts(ss) + [":"] + Texts(os)
  }

  /** The decision opens the line, `perm=v` follows it, then the subject fields. */
  lemma ColonPermLineShape(dec: string, v: string, ss: seq<Field>, os: seq<Field>)
    ensures |ColonPermLine(dec, v, ss, os)| > 1 && ColonPermLine(dec, v, ss, os)[0] == dec
    ensures ColonPermLine(dec, v, ss, os)[1..][0] == "perm" + "=" + v
    ensures ColonPermLine(dec, v, ss, os)[1..][1..] == Texts(ss) + ([":"] + Texts(os))
  {
    assert ColonPermLine(dec, v, ss, os) == [dec, "perm" + "=" + v] + (Texts(ss) + ([":"] + Texts(os)));
  }

  /** An accepted `perm=` field first on a fresh rule sets the access and hands the rest to parse_new_format. */
  lemma PermLeadIn(rest: seq<string>, v: string, r: Rule, T: Tables)
    requires |rest| > 0 && rest[0] == "perm" + "=" + v && v in {"execute", "any", "open"}
    requires r.a == OpenAcc
    ensures LeadLoop(rest, r, true, T) ==
      var n := NewFormat(rest[1..], r.(a := PermAccess(v)), false, T);
      if n.0.Exited? then Stopped(n.0) else Finish(n.1)
  {
    PermField(v, r, T);
    LeadLoopUnfold(rest, r, true, T);
  }

  /**
   * A colon-syntax line made of a known decision, `perm=` with a value the
   * parser accepts, subject fields (`all` or a subject name with an
   * accepted value, in any order), a ':' and object fields, with at least
   * one field on each side, is accepted: the rule holds exactly those
   * conditions, each side in the order written, with the access `perm=`
   * names.
   */
  lemma ColonPermLineAccepted(dec: string, v: string, ss: seq<Field>, os: seq<Field>, T: Tables)
    requires |dec| > 0 && dec[0] != '#' && dec in T.decisions
    requires v in {"execute", "any", "open"}
    requires |ss| > 0 && forall k :: 0 <= k < |ss| ==> ColonSubject(ss[k], T)
    requires |os| > 0 && forall k :: 0 <= k < |os| ==> ColonObject(os[k], T)
    ensures ParseTokens(ColonPermLine(dec, v, ss, os), true, T) ==
      Ok(Rule(0, T.decisions[dec], PermAccess(v), FmtColon, ColonSubjects(ss, T), ColonObjects(os, T)))
  {
    var toks := ColonPermLine(dec, v, ss, os);
    var tail := [":"] + Texts(os);
    var r1 := Start(dec, true, T).(a := PermAccess(v));
    var r2 := r1.(subjects := ColonSubjects(ss, T));
    ColonPermLineShape(dec, v, ss, os);
    assert NewFormat(Texts(ss) + tail, r1, false, T) ==
      (Returned(0), Rule(0, T.decisions[dec], PermAccess(v), FmtColon, ColonSubjects(ss, T), ColonObjects(os, T))) by {
      ColonSubjectRun(ss, tail, r1, T);
      assert r1.(subjects := r1.subjects + ColonSubjects(ss, T)) == r2;
      ColonObjectSide(os, r2, T);
    }
    PermLeadIn(toks[1..], v, Start(dec, true, T), T);
    ParseDecided(toks, true, T);
  }

  /** The words of a `perm=`-led line are not empty, hold no blank when its parts hold none, and one is ':'. */
  lemma ColonPermLineWords(dec: string, v: string, ss: seq<Field>, os: seq<Field>)
    requires |dec| > 0 && ' ' !in dec && ' ' !in v
    requires forall k :: 0 <= k < |ss| ==> ' ' !in Text(ss[k])
    requires forall k :: 0 <= k < |os| ==> ' ' !in Text(os[k])
    ensures forall k :: 0 <= k < |ColonPermLine(dec, v, ss, os)| ==>
      |ColonPermLine(dec, v, ss, os)[k]| > 0 && ' ' !in ColonPermLine(dec, v, ss, os)[k]
    ensures ':' in Join(ColonPermLine(dec, v, ss, os))
  {
    var toks := ColonPermLine(dec, v, ss, os);
    var c := 2 + |ss|;
    assert |toks| == |os| + c + 1;
    forall k | 0 <= k < |toks|
      ensures |toks[k]| > 0 && ' ' !in toks[k]
    {
      if k == 1 {
        assert toks[k] == "perm" + "=" + v;
      } else if 1 < k < c {
        assert toks[k] == Text(ss[k - 2]);
      } else if k > c {
        assert toks[k] == Text(os[k - c - 1]);
      }
    }
    assert toks[c] == ":";
    InJoin(toks, c, ':');
  }

  /** Writing a `perm=`-led line out with blanks and parsing it back gives the same rule, when no word holds a blank. */
  lemma ColonPermLineRoundTrip(dec: string, v: string, ss: seq<Field>, os: seq<Field>, T: Tables)
    requires |dec| > 0 && dec[0] != '#' && dec in T.decisions
    requires v in {"execute", "any", "open"}
    requires |ss| > 0 && forall k :: 0 <= k < |ss| ==> ColonSubject(ss[k], T)
    requires |os| > 0 && forall k :: 0 <= k < |os| ==> ColonObject(os[k], T)
    requires ' ' !in dec
    requires forall k :: 0 <= k < |ss| ==> ' ' !in Text(ss[k])
    requires forall k :: 0 <= k < |os| ==> ' ' !in Text(os[k])
    ensures Parse(Join(ColonPermLine(dec, v, ss, os)), T) ==
      Ok(Rule(0, T.decisions[dec], PermAccess(v), FmtColon, ColonSubjects(ss, T), ColonObjects(os, T)))
  {
    ColonPermLineWords(dec, v, ss, os);
    TokensOfJoin(ColonPermLine(dec, v, ss, os));
    ColonPermLineAccepted(dec, v, ss, os, T);
  }

  /**
   * A `perm=`-led line never overflows a node when each side has at most
   * MAX_FIELDS fields; a refused `perm=` value stops the line before any
   * slot is written.
   */
  lemma ColonPermLineFits(dec: string, v: string, ss: seq<Field>, os: seq<Field>, T: Tables)
    requires |dec| > 0 && dec[0] != '#' && dec in T.decisions
    requires forall k :: 0 <= k < |ss| ==> ColonSubject(ss[k], T)
    requires forall k :: 0 <= k < |os| ==> ColonObject(os[k], T)
    requires |ss| <= MAX_FIELDS && |os| <= MAX_FIELDS
    ensures Fits(ColonPermLine(dec, v, ss, os), true, T)
  {
    var toks := ColonPermLine(dec, v, ss, os);
    var tail := [":"] + Texts(os);
    var r0 := Start(dec, true, T);
    ColonPermLineShape(dec, v, ss, os);
    assert LeadRoom(toks[1..][0], r0, true, T) by {
      IndexOfField("perm", v);
    }
    if v in {"execute", "any", "open"} {
      var r1 := r0.(a := PermAccess(v));
      assert NewFormatFits(Texts(ss) + tail, r1, false, T) by {
        var r2 := r1.(subjects := ColonSubjects(ss, T));
        assert r1.(subjects := r1.subjects + ColonSubjects(ss, T)) == r2;
        ColonObjectSideFits(os, r2, T);
        ColonSubjectRunFits(ss, tail, r1, T);
      }
    }
    PermField(v, r0, T);
  }
}
