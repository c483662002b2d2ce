/*
 * Parsing one rule line (nv_split, parse_new_format, assign_subject,
 * assign_object in src/library/rules.c).
 *
 * The functions in the first half say what a line turns into; they follow
 * the C code token by token. The class `Node` in the second half is the
 * lnode being filled in: its methods change the node step by step as the C
 * functions do and are proved to end where the functions say.
 */
module Parser {
  import opened CString
  import opened Policy

  // ---------------------------------------------------------------------
  // What a line means
  // ---------------------------------------------------------------------

  /** The value a subject literal stores, or why it is refused. */
  datatype ValueResult = Value(v: SubjValue) | BadValue | UnknownUser

  /**
   * How assign_subject turns the text after `=` into a slot value: strings
   * for the string kinds, `ld_so`/`static` for the pattern kind, decimal
   * numbers (bounded by LONG_MAX), and account names for uid and auid.
   */
  function SubjectValue(kind: SubjKind, text: string, accounts: map<string, int>): (r: ValueResult)
    ensures IsStringKind(kind) ==> r == Value(Str(text))
    ensures kind == Pattern ==> (r.Value? <==> text == "ld_so" || text == "static")
    ensures kind == Pattern && r.Value? ==>
      r.v == Num(PATTERN_LD_SO_VAL) || r.v == Num(PATTERN_STATIC_VAL)
    ensures r.UnknownUser? ==> (kind == Uid || kind == Auid) && text !in accounts
    ensures r.BadValue? ==> kind == Pattern || (|text| > 0 && IsDigit(text[0]))
    // a literal starting with a digit is the decimal value of its leading digits, refused above LONG_MAX
    ensures !IsStringKind(kind) && kind != Pattern && |text| > 0 && IsDigit(text[0]) ==>
      var n := Decimal(text[..DigitRun(text)]);
      r == if n > LONG_MAX then BadValue else Value(Num(n))
    ensures r.Value? && r.v.Num? && kind != Pattern && |text| > 0 && IsDigit(text[0]) ==> 0 <= r.v.n <= LONG_MAX
    // any other uid or auid literal is an account name: its id, or the process ends
    ensures (kind == Uid || kind == Auid) && !(|text| > 0 && IsDigit(text[0])) ==>
      r == if text in accounts then Value(Num(accounts[text])) else UnknownUser
    // any other literal of another numeric kind leaves the value unwritten
    ensures !IsStringKind(kind) && kind !in {Pattern, Uid, Auid} && !(|text| > 0 && IsDigit(text[0])) ==>
      r == Value(Unset)
  {
    if IsStringKind(kind) then Value(Str(text))
    else if kind == Pattern then
      if text == "ld_so" then Value(Num(PATTERN_LD_SO_VAL))
      else if text == "static" then Value(Num(PATTERN_STATIC_VAL))
      else BadValue
    else if |text| > 0 && IsDigit(text[0]) then
      var v := StrToL(text);
      if v > LONG_MAX then BadValue else Value(Num(v))
    else if kind == Auid || kind == Uid then
      if text in accounts then Value(Num(accounts[text])) else UnknownUser
    else Value(Unset)
  }

  /**
   * assign_subject on a rule: the status it ends with and the rule after it.
   * A stored value fills the next slot and bumps the count by one; a
   * refused value leaves the rule as it was; an unknown account ends the
   * process.
   */
  function AssignSubjectSpec(r: Rule, kind: SubjKind, text: string, T: Tables): (res: (Status, Rule))
    ensures res.0 == Returned(0) || res.0 == Returned(2) || res.0 == Exited(1)
    ensures res.0 == Returned(0) ==>
      |res.1.subjects| == |r.subjects| + 1 && res.1.subjects[..|r.subjects|] == r.subjects &&
      res.1.subjects[|r.subjects|].kind == kind
    ensures res.0 == Returned(0) <==> SubjectValue(kind, text, T.accounts).Value?
    ensures res.0 != Returned(0) ==> res.1 == r
    ensures res.1.objects == r.objects && res.1.d == r.d && res.1.a == r.a && res.1.format == r.format
  {
    match SubjectValue(kind, text, T.accounts)
    case Value(v) => (Returned(0), r.(subjects := r.subjects + [SubjPred(kind, v)]))
    case BadValue => (Returned(2), r)
    case UnknownUser => (Exited(1), r)
  }

  /** The object slot assign_object fills: the value, and its length for directories only. */
  function ObjectPred(kind: ObjKind, text: string): (p: ObjPred)
    ensures p.kind == kind && p.o == text
    ensures kind == ODir ==> p.len == |text|
    ensures kind != ODir ==> p.len == 0
  {
    ObjPred(kind, text, if kind == ODir then |text| else 0)
  }

  /** assign_object on a rule: one more object slot, filled. */
  function AssignObjectSpec(r: Rule, kind: ObjKind, text: string): (r': Rule)
    ensures |r'.objects| == |r.objects| + 1 && r'.objects[..|r.objects|] == r.objects
    ensures r'.objects[|r.objects|] == ObjectPred(kind, text)
    ensures r'.subjects == r.subjects && r'.d == r.d && r'.a == r.a && r'.format == r.format && r'.num == r.num
  {
    r.(objects := r.objects + [ObjectPred(kind, text)])
  }

  /** One token of parse_new_format: carry on (with the new phase) or return. */
  datatype NewStep = Go(rule: Rule, inObject: bool) | Quit(status: Status)

  /**
   * One token of the colon syntax after its first field: subject fields
   * until a bare `:`, object fields after it, `all` in either place.
   */
  function NewFormatStep(tok: string, r: Rule, inObject: bool, T: Tables): (s: NewStep)
    ensures s.Quit? ==> s.status in {Returned(1), Returned(2), Returned(5), Exited(1)}
    ensures s.Go? ==> s.rule.d == r.d && s.rule.a == r.a && s.rule.format == r.format && s.rule.num == r.num
    ensures s.Go? && !s.inObject ==>
      !inObject && s.rule.objects == r.objects &&
      |r.subjects| <= |s.rule.subjects| <= |r.subjects| + 1 && s.rule.subjects[..|r.subjects|] == r.subjects
    ensures s.Go? && s.inObject ==>
      s.rule.subjects == r.subjects &&
      |r.objects| <= |s.rule.objects| <= |r.objects| + 1 && s.rule.objects[..|r.objects|] == r.objects
    ensures s.Go? && s.inObject && !inObject ==> tok == ":" && s.rule == r
  {
    var eq := IndexOf(tok, '=');
    if eq < |tok| then
      var name, value := tok[..eq], tok[eq + 1..];
      if !inObject then
        if name !in T.colonSubjects then Quit(Returned(1))
        else
          var res := AssignSubjectSpec(r, T.colonSubjects[name], value, T);
          if res.0.Exited? then Quit(res.0) else Go(res.1, false)
      else if name !in T.objects then Quit(Returned(2))
      else Go(AssignObjectSpec(r, T.objects[name], value), true)
    else if !inObject && tok == ":" then Go(r, true)
    else if tok == "all" then
      if !inObject then Go(AssignSubjectSpec(r, AllSubj, "", T).1, false)
      else Go(AssignObjectSpec(r, AllObj, ""), true)
    else Quit(Returned(5))
  }

  /**
   * parse_new_format over the remaining tokens: its return code and the rule
   * as it stands when it returns. It only ever adds slots, one per token at
   * most, and returns 0, 1, 2 or 5 unless an unknown account ends the process.
   */
  function NewFormat(rest: seq<string>, r: Rule, inObject: bool, T: Tables): (res: (Status, Rule))
    ensures res.0 in {Returned(0), Returned(1), Returned(2), Returned(5), Exited(1)}
    ensures res.1.d == r.d && res.1.a == r.a && res.1.format == r.format && res.1.num == r.num
    ensures |r.subjects| <= |res.1.subjects| && res.1.subjects[..|r.subjects|] == r.subjects
    ensures |r.objects| <= |res.1.objects| && res.1.objects[..|r.objects|] == r.objects
    ensures |res.1.subjects| + |res.1.objects| <= |r.subjects| + |r.objects| + |rest|
    decreases |rest|
  {
    if |rest| == 0 then (Returned(0), r)
    else
      match NewFormatStep(rest[0], r, inObject, T)
      case Quit(st) => (st, r)
      case Go(r', inObject') => NewFormat(rest[1..], r', inObject', T)
  }

  /** One token of nv_split's own loop: carry on, hand the rest to parse_new_format, or return. */
  datatype Step = Next(rule: Rule) | HandOff(rule: Rule) | Stop(status: Status)

  /**
   * One token of nv_split after the decision. In the colon syntax the first
   * `name=value` token is a `perm=` setting or a subject field and then
   * hands over; in the original syntax each field name is tried as a
   * subject name, then as an object name; `all` becomes the subject
   * wildcard while there is no subject, else the object wildcard while
   * there is no object.
   */
  function LeadStep(tok: string, r: Rule, colon: bool, T: Tables): (s: Step)
    ensures s.Stop? ==>
      s.status in (if colon then {Returned(1), Returned(2), Returned(4), Returned(5), Exited(1)}
                   else {Returned(3), Returned(4), Returned(5), Exited(1)})
    ensures s.HandOff? ==> colon && '=' in tok
    ensures !s.Stop? ==> s.rule.d == r.d && s.rule.format == r.format && s.rule.num == r.num
    ensures !s.Stop? ==>
      |r.subjects| <= |s.rule.subjects| && s.rule.subjects[..|r.subjects|] == r.subjects &&
      |r.objects| <= |s.rule.objects| && s.rule.objects[..|r.objects|] == r.objects &&
      |s.rule.subjects| + |s.rule.objects| <= |r.subjects| + |r.objects| + 1
    ensures s.Next? ==> s.rule.a == r.a
  {
    var eq := IndexOf(tok, '=');
    if eq < |tok| then
      var name, value := tok[..eq], tok[eq + 1..];
      if colon then
        if name == "perm" then
          if value == "execute" then HandOff(r.(a := ExecAcc))
          else if value == "any" then HandOff(r.(a := AnyAcc))
          else if value != "open" then Stop(Returned(2))
          else HandOff(r)
        else if name !in T.colonSubjects then Stop(Returned(1))
        else
          var res := AssignSubjectSpec(r, T.colonSubjects[name], value, T);
          if res.0.Exited? then Stop(res.0) else HandOff(res.1)
      else if name !in T.legacySubjects then
        if name !in T.objects then Stop(Returned(3))
        else Next(AssignObjectSpec(r, T.objects[name], value))
      else
        var res := AssignSubjectSpec(r, T.legacySubjects[name], value, T);
        if res.0.Exited? then Stop(res.0) else Next(res.1)
    else if tok == "all" then
      if |r.subjects| == 0 then Next(AssignSubjectSpec(r, AllSubj, "", T).1)
      else if |r.objects| == 0 then Next(AssignObjectSpec(r, AllObj, ""))
      else Stop(Returned(4))
    else Stop(Returned(5))
  }

  /** What one field of nv_split's loop tells the loop to do. */
  datatype Action = Continue | HandOver | Return(status: Status)

  /** Where nv_split's loop ends: a return, or a jump to finish_up with the rule. */
  datatype Halt = Stopped(status: Status) | Finish(rule: Rule)

  /**
   * nv_split's loop over the tokens after the decision. The codes it can
   * return depend on the syntax: 1, 2, 4 or 5 in the colon syntax (the
   * code of parse_new_format is dropped), 3, 4 or 5 in the original one,
   * where a bad pattern literal is never reported. The original syntax
   * never changes the access kind.
   */
  function LeadLoop(rest: seq<string>, r: Rule, colon: bool, T: Tables): (h: Halt)
    ensures h.Stopped? ==>
      h.status in (if colon then {Returned(1), Returned(2), Returned(4), Returned(5), Exited(1)}
                   else {Returned(3), Returned(4), Returned(5), Exited(1)})
    ensures h.Finish? ==> h.rule.d == r.d && h.rule.format == r.format && h.rule.num == r.num
    ensures h.Finish? && !colon ==> h.rule.a == r.a
    ensures h.Finish? ==> |h.rule.subjects| + |h.rule.objects| <= |r.subjects| + |r.objects| + |rest|
    decreases |rest|
  {
    if |rest| == 0 then Finish(r)
    else
      match LeadStep(rest[0], r, colon, T)
      case Next(r') => LeadLoop(rest[1..], r', colon, T)
      case Stop(st) => Stopped(st)
      case HandOff(r') =>
        var res := NewFormat(rest[1..], r', false, T);
        if res.0.Exited? then Stopped(res.0) else Finish(res.1)
  }

  /** What one line comes to: skipped, refused with a code, fatal, or a rule. */
  datatype Outcome = Skip | Fail(code: int) | Exit | Ok(rule: Rule)

  /** The value nv_split returns for an outcome (-1 nothing, 0 OK, >0 error). */
  function StatusOf(o: Outcome): Status
  {
    match o
    case Skip => Returned(-1)
    case Fail(c) => Returned(c)
    case Exit => Exited(1)
    case Ok(_) => Returned(0)
  }

  /** finish_up: a rule needs at least one subject (else 6) and one object (else 7). */
  function FinishUp(r: Rule): (o: Outcome)
    ensures o.Ok? <==> |r.subjects| > 0 && |r.objects| > 0
    ensures o.Ok? ==> o.rule == r
    ensures o == Fail(6) <==> |r.subjects| == 0
    ensures o == Fail(7) <==> |r.subjects| > 0 && |r.objects| == 0
  {
    if |r.subjects| == 0 then Fail(6)
    else if |r.objects| == 0 then Fail(7)
    else Ok(r)
  }

  /** The rule nv_split starts from once the decision `dec` has been read: open access, no slots. */
  function Start(dec: string, colon: bool, T: Tables): Rule
    requires dec in T.decisions
  {
    Rule(0, T.decisions[dec], OpenAcc, if colon then FmtColon else FmtOrig, [], [])
  }

  /**
   * nv_split over the tokens of a line; `colon` is whether the line
   * contains a ':' anywhere. Blank lines and comments are skipped; an
   * unknown decision is code 1; every other refusal has its own code up to
   * 7; a rule has a subject and an object, the decision named first, no
   * more slots than the line has fields, and open access unless the colon
   * syntax set it.
   */
  function ParseTokens(toks: seq<string>, colon: bool, T: Tables): (o: Outcome)
    requires |toks| > 0 ==> |toks[0]| > 0
    ensures o.Skip? <==> |toks| == 0 || toks[0][0] == '#'
    ensures o.Fail? ==> 1 <= o.code <= 7
    ensures o.Fail? && colon ==> o.code != 3
    ensures o.Fail? && !colon ==> o.code != 2
    ensures !o.Skip? && toks[0] !in T.decisions ==> o == Fail(1)
    ensures o.Ok? ==>
      toks[0] in T.decisions && o.rule.d == T.decisions[toks[0]] &&
      |o.rule.subjects| >= 1 && |o.rule.objects| >= 1 &&
      |o.rule.subjects| + |o.rule.objects| <= |toks| - 1 &&
      o.rule.format == (if colon then FmtColon else FmtOrig) && o.rule.num == 0
    ensures o.Ok? && !colon ==> o.rule.a == OpenAcc
  {
    if |toks| == 0 || toks[0][0] == '#' then Skip
    else if toks[0] !in T.decisions then Fail(1)
    else
      match LeadLoop(toks[1..], Start(toks[0], colon, T), colon, T)
      case Stopped(st) => if st.Exited? then Exit else Fail(st.rc)
      case Finish(r) => FinishUp(r)
  }

  /** One line of rule text: its tokens, in the colon syntax if it holds a ':'. */
  function Parse(buf: string, T: Tables): (o: Outcome)
    ensures o.Skip? <==> Tokens(buf) == [] || Tokens(buf)[0][0] == '#'
    ensures o.Ok? ==> o.rule.format == (if ':' in buf then FmtColon else FmtOrig)
    ensures o.Ok? ==> |o.rule.subjects| + |o.rule.objects| < |Tokens(buf)|
  {
    ParseTokens(Tokens(buf), ':' in buf, T)
  }

  // ---------------------------------------------------------------------
  // Room in the slot arrays
  // ---------------------------------------------------------------------

  /*
   * assign_subject and assign_object write the slot at the current count
   * (its type first) before they check anything, so each call needs a free
   * slot on its own side, whether or not the value is then accepted. The
   * predicates below say which fields call them, and ask for that room.
   */

  /** The field `tok` of nv_split's loop finds room for the slot it makes assign_subject or assign_object write. */
  predicate LeadRoom(tok: string, r: Rule, colon: bool, T: Tables)
  {
    var eq := IndexOf(tok, '=');
    if eq < |tok| then
      var name := tok[..eq];
      if colon then name == "perm" || name !in T.colonSubjects || |r.subjects| < MAX_FIELDS
      else if name in T.legacySubjects then |r.subjects| < MAX_FIELDS
      else name !in T.objects || |r.objects| < MAX_FIELDS
    else if tok == "all" then
      if |r.subjects| == 0 then 0 < MAX_FIELDS
      else |r.objects| == 0 ==> 0 < MAX_FIELDS
    else true
  }

  /** The field `tok` of parse_new_format finds room for the slot it makes assign_subject or assign_object write. */
  predicate NewRoom(tok: string, r: Rule, inObject: bool, T: Tables)
  {
    var eq := IndexOf(tok, '=');
    if eq < |tok| then
      var name := tok[..eq];
      if !inObject then name !in T.colonSubjects || |r.subjects| < MAX_FIELDS
      else name !in T.objects || |r.objects| < MAX_FIELDS
    else if !inObject && tok == ":" then true
    else if tok == "all" then
      if !inObject then |r.subjects| < MAX_FIELDS else |r.objects| < MAX_FIELDS
    else true
  }

  /** Every field parse_new_format reads finds room. */
  predicate NewFormatFits(rest: seq<string>, r: Rule, inObject: bool, T: Tables)
    decreases |rest|
  {
    |rest| == 0 ||
    (NewRoom(rest[0], r, inObject, T) &&
     match NewFormatStep(rest[0], r, inObject, T)
     case Quit(_) => true
     case Go(r', inObject') => NewFormatFits(rest[1..], r', inObject', T))
  }

  /** Every field nv_split's loop reads, and parse_new_format after it, finds room. */
  predicate LeadLoopFits(rest: seq<string>, r: Rule, colon: bool, T: Tables)
    decreases |rest|
  {
    |rest| == 0 ||
    (LeadRoom(rest[0], r, colon, T) &&
     match LeadStep(rest[0], r, colon, T)
     case Stop(_) => true
     case Next(r') => LeadLoopFits(rest[1..], r', colon, T)
     case HandOff(r') => NewFormatFits(rest[1..], r', false, T))
  }

  /** Parsing the line `toks` never writes past the end of a slot array. */
  predicate Fits(toks: seq<string>, colon: bool, T: Tables)
    requires |toks| > 0 ==> |toks[0]| > 0
  {
    |toks| == 0 || toks[0][0] == '#' || toks[0] !in T.decisions ||
    LeadLoopFits(toks[1..], Start(toks[0], colon, T), colon, T)
  }

  // ---------------------------------------------------------------------
  // The node being filled in
  // ---------------------------------------------------------------------

  /**
   * The lnode that rules_append allocates and nv_split fills. The slot
   * arrays and their counts are the sequences `subjects` and `objects`;
   * the node's list position and link belong to the rule list.
   */
  class Node {
    var d: Decision
    var a: Access
    var format: Format
    var subjects: seq<SubjPred>
    var objects: seq<ObjPred>

    /** Neither slot array overflows. */
    predicate Valid()
      reads this
    {
      |subjects| <= MAX_FIELDS && |objects| <= MAX_FIELDS
    }

    /** The node as a rule not yet placed in a list (position 0). */
    function View(): Rule
      reads this
    {
      Rule(0, d, a, format, subjects, objects)
    }

    /** A fresh node with both slot counts at zero, as rules_append sets it up. */
    constructor ()
      ensures Valid() && subjects == [] && objects == []
    {
      // The decision, access and syntax are written by NvSplit before use.
      d := Decision(false, false, false);
      a := OpenAcc;
      format := FmtOrig;
      subjects := [];
      objects := [];
    }

    /** assign_subject: store `text` as a `kind` field in the next subject slot. */
    method AssignSubject(kind: SubjKind, text: string, T: Tables) returns (st: Status)
      requires Valid() && |subjects| < MAX_FIELDS
      modifies this
      ensures Valid()
      ensures (st, View()) == AssignSubjectSpec(old(View()), kind, text, T)
    {
      if IsStringKind(kind) {
        subjects := subjects + [SubjPred(kind, Str(text))];
        return Returned(0);
      }
      var value := Unset;
      if kind == Pattern {
        if text == "ld_so" {
          value := Num(PATTERN_LD_SO_VAL);
        } else if text == "static" {
          value := Num(PATTERN_STATIC_VAL);
        } else {
          return Returned(2);
        }
      } else if |text| > 0 && IsDigit(text[0]) {
        var v := StrToL(text);
        if v > LONG_MAX {
          return Returned(2);
        }
        value := Num(v);
      } else if kind == Auid || kind == Uid {
        // getpwnam failed: the daemon exits
        if text !in T.accounts {
          return Exited(1);
        }
        value := Num(T.accounts[text]);
      }
      subjects := subjects + [SubjPred(kind, value)];
      st := Returned(0);
    }

    /** assign_object: store `text` as a `kind` field in the next object slot. */
    method AssignObject(kind: ObjKind, text: string)
      requires Valid() && |objects| < MAX_FIELDS
      modifies this
      ensures Valid()
      ensures View() == AssignObjectSpec(old(View()), kind, text)
    {
      var len := 0;
      if kind == ODir {
        len := |text|;
      }
      objects := objects + [ObjPred(kind, text, len)];
    }

    /**
     * parse_new_format: the colon syntax after its first field, over the
     * tokens strtok has left.
     */
    method ParseNewFormat(rest: seq<string>, T: Tables) returns (st: Status)
      requires Valid() && NewFormatFits(rest, View(), false, T)
      modifies this
      ensures Valid()
      ensures (st, View()) == NewFormat(rest, old(View()), false, T)
    {
      var inObject := false;  // the C `state`: 0 subject fields, 1 object fields
      var i := 0;
      while i < |rest|
        invariant 0 <= i <= |rest|
        invariant Valid() && NewFormatFits(rest[i..], View(), inObject, T)
        invariant NewFormat(rest[i..], View(), inObject, T) == NewFormat(rest, old(View()), false, T)
      {
        assert rest[i..][0] == rest[i] && rest[i..][1..] == rest[i + 1..];
        ghost var before, wasObject := View(), inObject;
        assert NewRoom(rest[i], before, wasObject, T);
        assert NewFormatStep(rest[i], before, wasObject, T).Go? ==>
          NewFormatFits(rest[i + 1..], NewFormatStep(rest[i], before, wasObject, T).rule,
                        NewFormatStep(rest[i], before, wasObject, T).inObject, T);
        var tok := rest[i];
        var eq := IndexOf(tok, '=');
        if eq < |tok| {
          var name, value := tok[..eq], tok[eq + 1..];
          if !inObject {
            if name !in T.colonSubjects {
              return Returned(1);
            }
            var rc := AssignSubject(T.colonSubjects[name], value, T);
            if rc.Exited? {
              return rc;
            }
          } else {
            if name !in T.objects {
              return Returned(2);
            }
            AssignObject(T.objects[name], value);
          }
        } else if !inObject && tok == ":" {
          inObject := true;
        } else if tok == "all" {
          if !inObject {
            var ignored := AssignSubject(AllSubj, "", T);
          } else {
            AssignObject(AllObj, "");
          }
        } else {
          return Returned(5);
        }
        assert NewFormatStep(tok, before, wasObject, T) == Go(View(), inObject);
        i := i + 1;
      }
      return Returned(0);
    }

    /**
     * One field of nv_split's loop, applied to this node: whether the loop
     * goes on, hands the remaining tokens to parse_new_format, or returns.
     */
    method SplitField(tok: string, colon: bool, T: Tables) returns (act: Action)
      requires Valid() && LeadRoom(tok, View(), colon, T)
      modifies this
      ensures Valid()
      ensures match LeadStep(tok, old(View()), colon, T)
        case Next(r) => act == Continue && View() == r
        case HandOff(r) => act == HandOver && View() == r
        case Stop(status) => act == Return(status) && View() == old(View())
    {
      var eq := IndexOf(tok, '=');
      if eq < |tok| {
        var name, value := tok[..eq], tok[eq + 1..];
        if colon {
          if name == "perm" {
            if value == "execute" {
              a := ExecAcc;
            } else if value == "any" {
              a := AnyAcc;
            } else if value != "open" {
              return Return(Returned(2));
            }
          } else {
            if name !in T.colonSubjects {
              return Return(Returned(1));
            }
            var rc := AssignSubject(T.colonSubjects[name], value, T);
            if rc.Exited? {
              return Return(rc);
            }
          }
          return HandOver;
        }
        if name !in T.legacySubjects {
          if name !in T.objects {
            return Return(Returned(3));
          }
          AssignObject(T.objects[name], value);
        } else {
          var rc := AssignSubject(T.legacySubjects[name], value, T);
          if rc.Exited? {
            return Return(rc);
          }
        }
      } else if tok == "all" {
        if |subjects| == 0 {
          var ignored := AssignSubject(AllSubj, "", T);
        } else if |objects| == 0 {
          AssignObject(AllObj, "");
        } else {
          return Return(Returned(4));
        }
      } else {
        return Return(Returned(5));
      }
      return Continue;
    }

    /**
     * The loop of nv_split over the fields after the decision, up to the
     * point where it returns (`Return`) or goes to finish_up (`Continue`).
     */
    method SplitFields(rest: seq<string>, colon: bool, T: Tables) returns (act: Action)
      requires Valid() && LeadLoopFits(rest, View(), colon, T)
      modifies this
      ensures Valid() && !act.HandOver?
      ensures match LeadLoop(rest, old(View()), colon, T)
        case Stopped(status) => act == Return(status)
        case Finish(r) => act == Continue && View() == r
    {
      var i := 0;
      while i < |rest|
        invariant 0 <= i <= |rest|
        invariant Valid() && LeadLoopFits(rest[i..], View(), colon, T)
        invariant LeadLoop(rest[i..], View(), colon, T) == LeadLoop(rest, old(View()), colon, T)
      {
        assert rest[i..][0] == rest[i] && rest[i..][1..] == rest[i + 1..];
        act := SplitField(rest[i], colon, T);
        if act.Return? {
          return;
        }
        if act.HandOver? {
          // parse_new_format takes the remaining tokens; its code is dropped
          var rc := ParseNewFormat(rest[i + 1..], T);
          if rc.Exited? {
            return Return(rc);
          }
          i := |rest|;
        } else {
          i := i + 1;
        }
      }
      return Continue;
    }

    /**
     * nv_split: parse one rule line into this node. Returns -1 for nothing
     * to do, 0 for a rule, a positive code for an error; an unknown account
     * name ends the process. The line must leave room for every slot it
     * makes the node write (the C code does not check this).
     */
    method NvSplit(buf: string, T: Tables) returns (st: Status)
      requires Valid() && subjects == [] && objects == []
      requires Fits(Tokens(buf), ':' in buf, T)
      modifies this
      ensures Valid()
      ensures st == StatusOf(Parse(buf, T))
      ensures Parse(buf, T).Ok? ==> View() == Parse(buf, T).rule
    {
      var colon := ':' in buf;
      format := if colon then FmtColon else FmtOrig;
      var toks := Tokens(buf);
      if |toks| == 0 || toks[0][0] == '#' {
        return Returned(-1);
      }
      if toks[0] !in T.decisions {
        return Returned(1);
      }
      d := T.decisions[toks[0]];
      a := OpenAcc;  // the default access permission
      var act := SplitFields(toks[1..], colon, T);
      if act.Return? {
        return act.status;
      }
      // finish_up
      if |subjects| == 0 {
        return Returned(6);
      }
      if |objects| == 0 {
        return Returned(7);
      }
      return Returned(0);
    }
  }
}
