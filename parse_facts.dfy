/*
 * What the rule parser does with particular kinds of lines: where the
 * `all` wildcards can end up, which code each refusal carries, and how the
 * colon syntax treats the fields after its first one.
 */
module ParseFacts {
  import opened CString
  import opened Policy
  import opened Parser

  /** The subject wildcard, if present, is the first subject, and likewise for objects. */
  predicate WildcardsFirst(r: Rule)
  {
    (forall k :: 0 < k < |r.subjects| ==> r.subjects[k].kind != AllSubj) &&
    (forall k :: 0 < k < |r.objects| ==> r.objects[k].kind != AllObj)
  }

  /** No field name of the original syntax stands for a wildcard. */
  predicate NoNamedWildcard(T: Tables)
  {
    (forall n :: n in T.legacySubjects ==> T.legacySubjects[n] != AllSubj) &&
    (forall n :: n in T.objects ==> T.objects[n] != AllObj)
  }

  /** nv_split's loop, one field at a time. */
  lemma LeadLoopUnfold(rest: seq<string>, r: Rule, colon: bool, T: Tables)
    requires |rest| > 0
    ensures LeadStep(rest[0], r, colon, T).Next? ==>
      LeadLoop(rest, r, colon, T) == LeadLoop(rest[1..], LeadStep(rest[0], r, colon, T).rule, colon, T)
    ensures LeadStep(rest[0], r, colon, T).Stop? ==>
      LeadLoop(rest, r, colon, T) == Stopped(LeadStep(rest[0], r, colon, T).status)
    ensures LeadStep(rest[0], r, colon, T).HandOff? ==>
      LeadLoop(rest, r, colon, T) ==
        if NewFormat(rest[1..], LeadStep(rest[0], r, colon, T).rule, false, T).0.Exited?
        then Stopped(NewFormat(rest[1..], LeadStep(rest[0], r, colon, T).rule, false, T).0)
        else Finish(NewFormat(rest[1..], LeadStep(rest[0], r, colon, T).rule, false, T).1)
  {
  }

  /** parse_new_format's loop, one field at a time. */
  lemma NewFormatUnfold(rest: seq<string>, r: Rule, inObject: bool, T: Tables)
    requires |rest| > 0
    ensures NewFormatStep(rest[0], r, inObject, T).Quit? ==>
      NewFormat(rest, r, inObject, T) == (NewFormatStep(rest[0], r, inObject, T).status, r)
    ensures NewFormatStep(rest[0], r, inObject, T).Go? ==>
      NewFormat(rest, r, inObject, T) ==
        NewFormat(rest[1..], NewFormatStep(rest[0], r, inObject, T).rule, NewFormatStep(rest[0], r, inObject, T).inObject, T)
  {
  }

  /** A line that starts with a known decision ends where nv_split's loop and finish_up say. */
  lemma ParseDecided(toks: seq<string>, colon: bool, T: Tables)
    requires |toks| > 0 && |toks[0]| > 0 && toks[0][0] != '#' && toks[0] in T.decisions
    ensures LeadLoop(toks[1..], Start(toks[0], colon, T), colon, T).Finish? ==>
      ParseTokens(toks, colon, T) == FinishUp(LeadLoop(toks[1..], Start(toks[0], colon, T), colon, T).rule)
    ensures LeadLoop(toks[1..], Start(toks[0], colon, T), colon, T).Stopped? &&
            LeadLoop(toks[1..], Start(toks[0], colon, T), colon, T).status.Returned? ==>
      ParseTokens(toks, colon, T) == Fail(LeadLoop(toks[1..], Start(toks[0], colon, T), colon, T).status.rc)
  {
  }

  /** One field of the original syntax keeps the wildcards first. */
  lemma LeadStepKeepsWildcardsFirst(tok: string, r: Rule, T: Tables)
    requires NoNamedWildcard(T) && WildcardsFirst(r)
    ensures LeadStep(tok, r, false, T).Next? ==> WildcardsFirst(LeadStep(tok, r, false, T).rule)
  {
    var eq := IndexOf(tok, '=');
    if eq < |tok| {
      var name, value := tok[..eq], tok[eq + 1..];
      if name in T.legacySubjects {
        var res := AssignSubjectSpec(r, T.legacySubjects[name], value, T);
        assert res.0 == Returned(0) ==> res.1.subjects == r.subjects + [res.1.subjects[|r.subjects|]];
      } else if name in T.objects {
        assert AssignObjectSpec(r, T.objects[name], value).objects == r.objects + [ObjectPred(T.objects[name], value)];
      }
    }
  }

  /** The field loop of the original syntax keeps the wildcards first. */
  lemma {:induction false} LeadLoopKeepsWildcardsFirst(rest: seq<string>, r: Rule, T: Tables)
    requires NoNamedWildcard(T) && WildcardsFirst(r)
    ensures LeadLoop(rest, r, false, T).Finish? ==> WildcardsFirst(LeadLoop(rest, r, false, T).rule)
    decreases |rest|
  {
    if |rest| > 0 {
      LeadStepKeepsWildcardsFirst(rest[0], r, T);
      match LeadStep(rest[0], r, false, T)
      case Next(q) => LeadLoopKeepsWildcardsFirst(rest[1..], q, T);
      case Stop(_) =>
      case HandOff(_) =>
    }
  }

  /**
   * In the original syntax `all` stands for the subject wildcard only as
   * the first subject and for the object wildcard only as the first object,
   * because it is placed by the counts so far.
   */
  lemma LegacyWildcardsFirst(toks: seq<string>, T: Tables)
    requires |toks| > 0 ==> |toks[0]| > 0
    requires NoNamedWildcard(T)
    ensures ParseTokens(toks, false, T).Ok? ==> WildcardsFirst(ParseTokens(toks, false, T).rule)
  {
    if |toks| > 0 && toks[0][0] != '#' && toks[0] in T.decisions {
      LeadLoopKeepsWildcardsFirst(toks[1..], Rule(0, T.decisions[toks[0]], OpenAcc, FmtOrig, [], []), T);
    }
  }

  // Single fields. A field `name=value` whose name holds no '=' is split
  // at the '=' that follows the name.

  /**
   * Colon syntax: a known subject name whose value is accepted fills the
   * next subject slot, both as the first field (which then hands over to
   * parse_new_format) and as a later one.
   */
  lemma ColonSubjectField(name: string, value: string, r: Rule, T: Tables)
    requires '=' !in name && name in T.colonSubjects
    requires SubjectValue(T.colonSubjects[name], value, T.accounts).Value?
    ensures name != "perm" ==>
      LeadStep(name + "=" + value, r, true, T) ==
        HandOff(r.(subjects := r.subjects + [SubjPred(T.colonSubjects[name], SubjectValue(T.colonSubjects[name], value, T.accounts).v)]))
    ensures NewFormatStep(name + "=" + value, r, false, T) ==
      Go(r.(subjects := r.subjects + [SubjPred(T.colonSubjects[name], SubjectValue(T.colonSubjects[name], value, T.accounts).v)]), false)
  {
    IndexOfField(name, value);
  }

  /**
   * Colon syntax: a subject value the value check refuses is dropped, and
   * the parse goes on with the rule unchanged.
   */
  lemma ColonRefusedValueDropped(name: string, value: string, r: Rule, T: Tables)
    requires '=' !in name && name in T.colonSubjects
    requires SubjectValue(T.colonSubjects[name], value, T.accounts) == BadValue
    ensures NewFormatStep(name + "=" + value, r, false, T) == Go(r, false)
    ensures name != "perm" ==> LeadStep(name + "=" + value, r, true, T) == HandOff(r)
  {
    IndexOfField(name, value);
  }

  /** Colon syntax: a subject name that is not known is refused with 1. */
  lemma ColonUnknownName(name: string, value: string, r: Rule, T: Tables)
    requires '=' !in name && name != "perm" && name !in T.colonSubjects
    ensures LeadStep(name + "=" + value, r, true, T) == Stop(Returned(1))
    ensures NewFormatStep(name + "=" + value, r, false, T) == Quit(Returned(1))
  {
    IndexOfField(name, value);
  }

  /** Colon syntax after the ':': an object name fills an object slot, any other name is refused with 2. */
  lemma ColonObjectField(name: string, value: string, r: Rule, T: Tables)
    requires '=' !in name
    ensures name in T.objects ==>
      NewFormatStep(name + "=" + value, r, true, T) == Go(AssignObjectSpec(r, T.objects[name], value), true)
    ensures name !in T.objects ==> NewFormatStep(name + "=" + value, r, true, T) == Quit(Returned(2))
  {
    IndexOfField(name, value);
  }

  /**
   * The `perm=` field, first in the colon syntax: `execute` and `any` set
   * the access kind, `open` keeps the default, anything else is refused
   * with 2.
   */
  lemma PermField(value: string, r: Rule, T: Tables)
    ensures value == "execute" ==> LeadStep("perm" + "=" + value, r, true, T) == HandOff(r.(a := ExecAcc))
    ensures value == "any" ==> LeadStep("perm" + "=" + value, r, true, T) == HandOff(r.(a := AnyAcc))
    ensures value == "open" ==> LeadStep("perm" + "=" + value, r, true, T) == HandOff(r)
    ensures value !in {"execute", "any", "open"} ==> LeadStep("perm" + "=" + value, r, true, T) == Stop(Returned(2))
  {
    IndexOfField("perm", value);
  }

  /**
   * The keyword `all`: in nv_split's own loop it is the subject wildcard
   * while there is no subject, else the object wildcard while there is no
   * object, else refused with 4; in parse_new_format it is the wildcard of
   * the side being read.
   */
  lemma AllField(r: Rule, colon: bool, T: Tables)
    ensures |r.subjects| == 0 ==>
      LeadStep("all", r, colon, T) == Next(r.(subjects := [SubjPred(AllSubj, Unset)]))
    ensures |r.subjects| > 0 && |r.objects| == 0 ==>
      LeadStep("all", r, colon, T) == Next(r.(objects := [ObjPred(AllObj, "", 0)]))
    ensures |r.subjects| > 0 && |r.objects| > 0 ==> LeadStep("all", r, colon, T) == Stop(Returned(4))
    ensures NewFormatStep("all", r, false, T) == Go(r.(subjects := r.subjects + [SubjPred(AllSubj, Unset)]), false)
    ensures NewFormatStep("all", r, true, T) == Go(r.(objects := r.objects + [ObjPred(AllObj, "", 0)]), true)
    ensures IndexOf("all", '=') == 3
  {
    assert IndexOf("all", '=') == 3;
    assert SubjectValue(AllSubj, "", T.accounts) == Value(Unset);
  }

  /**
   * A field without '=' other than `all`: refused with 5 by nv_split's own
   * loop; in parse_new_format a bare ':' switches to the objects once, and
   * anything else is refused with 5.
   */
  lemma BareField(tok: string, r: Rule, colon: bool, T: Tables)
    requires '=' !in tok && tok != "all"
    ensures LeadStep(tok, r, colon, T) == Stop(Returned(5))
    ensures tok == ":" ==> NewFormatStep(tok, r, false, T) == Go(r, true)
    ensures tok != ":" ==> NewFormatStep(tok, r, false, T) == Quit(Returned(5))
    ensures NewFormatStep(tok, r, true, T) == Quit(Returned(5))
  {
    assert IndexOf(tok, '=') == |tok|;
  }

  /** Original syntax: a subject name whose value is accepted fills the next subject slot. */
  lemma LegacySubjectField(name: string, value: string, r: Rule, T: Tables)
    requires '=' !in name && name in T.legacySubjects
    requires SubjectValue(T.legacySubjects[name], value, T.accounts).Value?
    ensures LeadStep(name + "=" + value, r, false, T) ==
      Next(r.(subjects := r.subjects + [SubjPred(T.legacySubjects[name], SubjectValue(T.legacySubjects[name], value, T.accounts).v)]))
  {
    IndexOfField(name, value);
  }

  /**
   * Original syntax: a subject value the value check refuses is dropped as
   * well, and the loop goes on with the rule unchanged.
   */
  lemma LegacyRefusedValueDropped(name: string, value: string, r: Rule, T: Tables)
    requires '=' !in name && name in T.legacySubjects
    requires SubjectValue(T.legacySubjects[name], value, T.accounts) == BadValue
    ensures LeadStep(name + "=" + value, r, false, T) == Next(r)
  {
    IndexOfField(name, value);
  }

  /** Original syntax: a name that is not a subject name but an object name fills an object slot. */
  lemma LegacyObjectField(name: string, value: string, r: Rule, T: Tables)
    requires '=' !in name && name !in T.legacySubjects && name in T.objects
    ensures LeadStep(name + "=" + value, r, false, T) == Next(AssignObjectSpec(r, T.objects[name], value))
  {
    IndexOfField(name, value);
  }

  /** Original syntax: a name known neither as a subject nor as an object is refused with 3. */
  lemma LegacyUnknownName(name: string, value: string, r: Rule, T: Tables)
    requires '=' !in name && name !in T.legacySubjects && name !in T.objects
    ensures LeadStep(name + "=" + value, r, false, T) == Stop(Returned(3))
  {
    IndexOfField(name, value);
  }

  /** The field `uid=0` of the colon syntax: user id 0 goes into the next subject slot. */
  lemma UidZero(tok: string, r: Rule, T: Tables)
    requires tok == "uid=0"
    requires "uid" in T.colonSubjects && T.colonSubjects["uid"] == Uid
    ensures LeadStep(tok, r, true, T) == HandOff(r.(subjects := r.subjects + [SubjPred(Uid, Num(0))]))
  {
    assert tok == "uid" + "=" + "0";
    assert SubjectValue(Uid, "0", T.accounts) == Value(Num(0)) by {
      assert StrToL("0") == 0;
    }
    ColonSubjectField("uid", "0", r, T);
  }

  /** A decimal user id: `uid=42` stores the number 42, whatever the account database holds. */
  lemma UidDecimal(text: string, accounts: map<string, int>)
    requires text == "42"
    ensures SubjectValue(Uid, text, accounts) == Value(Num(42))
  {
    assert DigitRun(text) == 2 by {
      assert text[1..][1..] == "";
    }
    assert text[..2] == text;
    assert Decimal(text) == 42 by {
      assert text[..1] == "4";
      assert Decimal("4") == 4 by {
        assert "4"[..0] == "";
      }
    }
  }

  // Runs of fields, for the examples below. Each run is a parameter pinned
  // by its requires and taken apart one field at a time.

  lemma ColonThenAll(rest: seq<string>, r: Rule, T: Tables)
    requires rest == [":", "all"]
    ensures NewFormat(rest, r, false, T) == (Returned(0), r.(objects := r.objects + [ObjPred(AllObj, "", 0)]))
  {
    BareField(rest[0], r, false, T);
    AllField(r, false, T);
    NewFormatUnfold(rest, r, false, T);
    NewFormatUnfold(rest[1..], r, true, T);
  }

  lemma AllColonAll(rest: seq<string>, r: Rule, T: Tables)
    requires rest == ["all", ":", "all"]
    ensures NewFormat(rest, r, false, T) ==
      (Returned(0), r.(subjects := r.subjects + [SubjPred(AllSubj, Unset)], objects := r.objects + [ObjPred(AllObj, "", 0)]))
  {
    var r' := r.(subjects := r.subjects + [SubjPred(AllSubj, Unset)]);
    AllField(r, false, T);
    NewFormatUnfold(rest, r, false, T);
    ColonThenAll(rest[1..], r', T);
  }

  lemma PathThenBogus(rest: seq<string>, r: Rule, T: Tables)
    requires rest == ["path=/y", "bogus"]
    requires "path" in T.objects && T.objects["path"] == Path
    ensures NewFormat(rest, r, true, T) == (Returned(5), r.(objects := r.objects + [ObjPred(Path, "/y", 0)]))
  {
    var r' := r.(objects := r.objects + [ObjPred(Path, "/y", 0)]);
    assert NewFormatStep(rest[0], r, true, T) == Go(r', true) by {
      assert rest[0] == "path" + "=" + "/y";
      ColonObjectField("path", "/y", r, T);
    }
    assert NewFormat(rest[1..], r', true, T) == (Returned(5), r') by {
      BareField(rest[1], r', true, T);
      NewFormatUnfold(rest[1..], r', true, T);
    }
    NewFormatUnfold(rest, r, true, T);
  }

  lemma ExeColonPathBogus(rest: seq<string>, r: Rule, T: Tables)
    requires rest == ["exe=/x", ":", "path=/y", "bogus"]
    requires "exe" in T.colonSubjects && T.colonSubjects["exe"] == Exe
    requires "path" in T.objects && T.objects["path"] == Path
    ensures NewFormat(rest, r, false, T) ==
      (Returned(5), r.(subjects := r.subjects + [SubjPred(Exe, Str("/x"))], objects := r.objects + [ObjPred(Path, "/y", 0)]))
  {
    var r' := r.(subjects := r.subjects + [SubjPred(Exe, Str("/x"))]);
    assert NewFormatStep(rest[0], r, false, T) == Go(r', false) by {
      assert rest[0] == "exe" + "=" + "/x";
      ColonSubjectField("exe", "/x", r, T);
    }
    assert NewFormat(rest[1..], r', false, T) == NewFormat(rest[1..][1..], r', true, T) by {
      BareField(rest[1], r', false, T);
      NewFormatUnfold(rest[1..], r', false, T);
    }
    PathThenBogus(rest[1..][1..], r', T);
    NewFormatUnfold(rest, r, false, T);
  }

  lemma NormalColonAll(rest: seq<string>, r: Rule, T: Tables)
    requires rest == ["pattern=normal", ":", "all"]
    requires "pattern" in T.colonSubjects && T.colonSubjects["pattern"] == Pattern
    ensures NewFormat(rest, r, false, T) == (Returned(0), r.(objects := r.objects + [ObjPred(AllObj, "", 0)]))
  {
    assert NewFormatStep(rest[0], r, false, T) == Go(r, false) by {
      assert rest[0] == "pattern" + "=" + "normal";
      ColonRefusedValueDropped("pattern", "normal", r, T);
    }
    ColonThenAll(rest[1..], r, T);
    NewFormatUnfold(rest, r, false, T);
  }

  lemma UidAllColonAll(rest: seq<string>, r: Rule, T: Tables)
    requires rest == ["uid=0", "all", ":", "all"]
    requires "uid" in T.colonSubjects && T.colonSubjects["uid"] == Uid
    ensures LeadLoop(rest, r, true, T) ==
      Finish(r.(subjects := r.subjects + [SubjPred(Uid, Num(0)), SubjPred(AllSubj, Unset)],
                objects := r.objects + [ObjPred(AllObj, "", 0)]))
  {
    var r1 := r.(subjects := r.subjects + [SubjPred(Uid, Num(0))]);
    UidZero(rest[0], r, T);
    assert NewFormat(rest[1..], r1, false, T) ==
      (Returned(0), r1.(subjects := r.subjects + [SubjPred(Uid, Num(0)), SubjPred(AllSubj, Unset)],
                        objects := r.objects + [ObjPred(AllObj, "", 0)])) by {
      AllColonAll(rest[1..], r1, T);
      assert r1.subjects + [SubjPred(AllSubj, Unset)] == r.subjects + [SubjPred(Uid, Num(0)), SubjPred(AllSubj, Unset)];
    }
    LeadLoopUnfold(rest, r, true, T);
  }

  lemma UidNormalColonAll(rest: seq<string>, r: Rule, T: Tables)
    requires rest == ["uid=0", "pattern=normal", ":", "all"]
    requires "uid" in T.colonSubjects && T.colonSubjects["uid"] == Uid
    requires "pattern" in T.colonSubjects && T.colonSubjects["pattern"] == Pattern
    ensures LeadLoop(rest, r, true, T) ==
      Finish(r.(subjects := r.subjects + [SubjPred(Uid, Num(0))], objects := r.objects + [ObjPred(AllObj, "", 0)]))
  {
    UidZero(rest[0], r, T);
    NormalColonAll(rest[1..], r.(subjects := r.subjects + [SubjPred(Uid, Num(0))]), T);
    LeadLoopUnfold(rest, r, true, T);
  }

  lemma PermAnyExeColonPathBogus(rest: seq<string>, r: Rule, T: Tables)
    requires rest == ["perm=any", "exe=/x", ":", "path=/y", "bogus"]
    requires "exe" in T.colonSubjects && T.colonSubjects["exe"] == Exe
    requires "path" in T.objects && T.objects["path"] == Path
    ensures LeadLoop(rest, r, true, T) ==
      Finish(r.(a := AnyAcc, subjects := r.subjects + [SubjPred(Exe, Str("/x"))], objects := r.objects + [ObjPred(Path, "/y", 0)]))
  {
    assert LeadStep(rest[0], r, true, T) == HandOff(r.(a := AnyAcc)) by {
      assert rest[0] == "perm" + "=" + "any";
      PermField("any", r, T);
    }
    ExeColonPathBogus(rest[1..], r.(a := AnyAcc), T);
    LeadLoopUnfold(rest, r, true, T);
  }

  lemma ExeColonAll(rest: seq<string>, r: Rule, T: Tables)
    requires rest == ["exe=/x", ":", "all"]
    requires "exe" in T.colonSubjects && T.colonSubjects["exe"] == Exe
    ensures LeadLoop(rest, r, true, T) ==
      Finish(r.(subjects := r.subjects + [SubjPred(Exe, Str("/x"))],
                objects := r.objects + [ObjPred(AllObj, "", 0)]))
  {
    var r1 := r.(subjects := r.subjects + [SubjPred(Exe, Str("/x"))]);
    assert LeadStep(rest[0], r, true, T) == HandOff(r1) by {
      assert rest[0] == "exe" + "=" + "/x";
      ColonSubjectField("exe", "/x", r, T);
    }
    ColonThenAll(rest[1..], r1, T);
    LeadLoopUnfold(rest, r, true, T);
  }

  lemma AllExeColonAll(rest: seq<string>, r: Rule, T: Tables)
    requires rest == ["all", "exe=/x", ":", "all"]
    requires "exe" in T.colonSubjects && T.colonSubjects["exe"] == Exe
    requires r.subjects == []
    ensures LeadLoop(rest, r, true, T) ==
      Finish(r.(subjects := [SubjPred(AllSubj, Unset), SubjPred(Exe, Str("/x"))],
                objects := r.objects + [ObjPred(AllObj, "", 0)]))
  {
    var r1 := r.(subjects := [SubjPred(AllSubj, Unset)]);
    assert LeadLoop(rest[1..], r1, true, T) ==
      Finish(r.(subjects := [SubjPred(AllSubj, Unset), SubjPred(Exe, Str("/x"))],
                objects := r.objects + [ObjPred(AllObj, "", 0)])) by {
      ExeColonAll(rest[1..], r1, T);
      assert r1.subjects + [SubjPred(Exe, Str("/x"))] == [SubjPred(AllSubj, Unset), SubjPred(Exe, Str("/x"))];
    }
    assert LeadLoop(rest, r, true, T) == LeadLoop(rest[1..], r1, true, T) by {
      AllField(r, true, T);
      LeadLoopUnfold(rest, r, true, T);
    }
  }

  lemma PathThenAll(rest: seq<string>, r: Rule, T: Tables)
    requires rest == ["path=/x", "all"]
    requires "path" !in T.legacySubjects && "path" in T.objects && T.objects["path"] == Path
    requires r.subjects == [] && r.objects == []
    ensures LeadLoop(rest, r, false, T) ==
      Finish(r.(subjects := [SubjPred(AllSubj, Unset)], objects := [ObjPred(Path, "/x", 0)]))
  {
    var r1 := r.(objects := [ObjPred(Path, "/x", 0)]);
    var r2 := r1.(subjects := [SubjPred(AllSubj, Unset)]);
    assert LeadStep(rest[0], r, false, T) == Next(r1) by {
      assert rest[0] == "path" + "=" + "/x";
      LegacyObjectField("path", "/x", r, T);
    }
    assert LeadLoop(rest[1..], r1, false, T) == Finish(r2) by {
      AllField(r1, false, T);
      LeadLoopUnfold(rest[1..], r1, false, T);
    }
    LeadLoopUnfold(rest, r, false, T);
  }

  lemma ThreeAlls(rest: seq<string>, r: Rule, colon: bool, T: Tables)
    requires |rest| >= 3 && rest[0] == "all" && rest[1] == "all" && rest[2] == "all"
    requires r.subjects == [] && r.objects == []
    ensures LeadLoop(rest, r, colon, T) == Stopped(Returned(4))
  {
    var r1 := r.(subjects := [SubjPred(AllSubj, Unset)]);
    var r2 := r1.(objects := [ObjPred(AllObj, "", 0)]);
    assert LeadLoop(rest[1..][1..], r2, colon, T) == Stopped(Returned(4)) by {
      AllField(r2, colon, T);
      LeadLoopUnfold(rest[1..][1..], r2, colon, T);
    }
    assert LeadLoop(rest[1..], r1, colon, T) == Stopped(Returned(4)) by {
      AllField(r1, colon, T);
      LeadLoopUnfold(rest[1..], r1, colon, T);
    }
    AllField(r, colon, T);
    LeadLoopUnfold(rest, r, colon, T);
  }

  lemma AllThenBareColon(rest: seq<string>, r: Rule, T: Tables)
    requires rest == ["all", ":", "all"]
    requires r.subjects == []
    ensures LeadLoop(rest, r, true, T) == Stopped(Returned(5))
  {
    var r1 := r.(subjects := [SubjPred(AllSubj, Unset)]);
    assert LeadLoop(rest[1..], r1, true, T) == Stopped(Returned(5)) by {
      BareField(rest[1], r1, true, T);
      LeadLoopUnfold(rest[1..], r1, true, T);
    }
    AllField(r, true, T);
    LeadLoopUnfold(rest, r, true, T);
  }

  lemma LegacyExeAndPath(rest: seq<string>, r: Rule, T: Tables)
    requires rest == ["exe=/x", "path=/a:b"]
    requires "exe" in T.legacySubjects && T.legacySubjects["exe"] == Exe
    requires "path" !in T.legacySubjects && "path" in T.objects && T.objects["path"] == Path
    ensures LeadLoop(rest, r, false, T) ==
      Finish(r.(subjects := r.subjects + [SubjPred(Exe, Str("/x"))], objects := r.objects + [ObjPred(Path, "/a:b", 0)]))
  {
    var r1 := r.(subjects := r.subjects + [SubjPred(Exe, Str("/x"))]);
    var r2 := r1.(objects := r.objects + [ObjPred(Path, "/a:b", 0)]);
    assert LeadStep(rest[0], r, false, T) == Next(r1) by {
      assert rest[0] == "exe" + "=" + "/x";
      LegacySubjectField("exe", "/x", r, T);
    }
    assert LeadLoop(rest[1..], r1, false, T) == Finish(r2) by {
      assert LeadStep(rest[1], r1, false, T) == Next(r2) by {
        assert rest[1] == "path" + "=" + "/a:b";
        LegacyObjectField("path", "/a:b", r1, T);
      }
      LeadLoopUnfold(rest[1..], r1, false, T);
    }
    LeadLoopUnfold(rest, r, false, T);
  }

  lemma ColonExeAndUnknownName(rest: seq<string>, r: Rule, T: Tables)
    requires rest == ["exe=/x", "path=/a:b"]
    requires "exe" in T.colonSubjects && T.colonSubjects["exe"] == Exe
    requires "path" !in T.colonSubjects
    ensures LeadLoop(rest, r, true, T) == Finish(r.(subjects := r.subjects + [SubjPred(Exe, Str("/x"))]))
  {
    var r1 := r.(subjects := r.subjects + [SubjPred(Exe, Str("/x"))]);
    assert LeadStep(rest[0], r, true, T) == HandOff(r1) by {
      assert rest[0] == "exe" + "=" + "/x";
      ColonSubjectField("exe", "/x", r, T);
    }
    assert NewFormat(rest[1..], r1, false, T) == (Returned(1), r1) by {
      assert NewFormatStep(rest[1], r1, false, T) == Quit(Returned(1)) by {
        assert rest[1] == "path" + "=" + "/a:b";
        ColonUnknownName("path", "/a:b", r1, T);
      }
      NewFormatUnfold(rest[1..], r1, false, T);
    }
    LeadLoopUnfold(rest, r, true, T);
  }

  lemma JoinedLineHasColon(toks: seq<string>)
    requires toks == ["allow", "exe=/x", "path=/a:b"]
    ensures Tokens(Join(toks)) == toks
    ensures ':' in Join(toks)
  {
    TokensOfJoin(toks);
    assert toks[2][7] == ':';
    InJoin(toks, 2, ':');
  }

  // The examples. Each is a whole line, given as its tokens.

  /** In the colon syntax `all` is placed by position: here the subject wildcard comes second. */
  lemma ColonWildcardByPosition(T: Tables, toks: seq<string>)
    requires toks == ["allow", "uid=0", "all", ":", "all"]
    requires "allow" in T.decisions
    requires "uid" in T.colonSubjects && T.colonSubjects["uid"] == Uid
    ensures ParseTokens(toks, true, T) ==
      Ok(Rule(0, T.decisions["allow"], OpenAcc, FmtColon,
        [SubjPred(Uid, Num(0)), SubjPred(AllSubj, Unset)], [ObjPred(AllObj, "", 0)]))
  {
    var r0 := Start(toks[0], true, T);
    assert LeadLoop(toks[1..], r0, true, T) ==
      Finish(r0.(subjects := [SubjPred(Uid, Num(0)), SubjPred(AllSubj, Unset)], objects := [ObjPred(AllObj, "", 0)])) by {
      UidAllColonAll(toks[1..], r0, T);
    }
    ParseDecided(toks, true, T);
  }

  /**
   * In the original syntax `all` after an object is still the subject
   * wildcard, since no subject has been seen yet.
   */
  lemma AllAfterObjectIsSubject(T: Tables, toks: seq<string>)
    requires toks == ["allow", "path=/x", "all"]
    requires "allow" in T.decisions
    requires "path" !in T.legacySubjects && "path" in T.objects && T.objects["path"] == Path
    ensures ParseTokens(toks, false, T) ==
      Ok(Rule(0, T.decisions["allow"], OpenAcc, FmtOrig, [SubjPred(AllSubj, Unset)], [ObjPred(Path, "/x", 0)]))
  {
    var r0 := Start(toks[0], false, T);
    assert LeadLoop(toks[1..], r0, false, T) ==
      Finish(r0.(subjects := [SubjPred(AllSubj, Unset)], objects := [ObjPred(Path, "/x", 0)])) by {
      PathThenAll(toks[1..], r0, T);
    }
    ParseDecided(toks, false, T);
  }

  /**
   * A third `all` has nothing left to stand for: code 4, in either syntax,
   * whatever follows it (a ':' later on the line included).
   */
  lemma ThirdAllRefused(T: Tables, colon: bool, toks: seq<string>)
    requires |toks| >= 4 && toks[..4] == ["allow", "all", "all", "all"]
    requires "allow" in T.decisions
    ensures ParseTokens(toks, colon, T) == Fail(4)
  {
    assert toks[0] == "allow" && toks[1] == "all" && toks[2] == "all" && toks[3] == "all" by {
      assert toks[..4][0] == toks[0] && toks[..4][1] == toks[1] && toks[..4][2] == toks[2] && toks[..4][3] == toks[3];
    }
    ThreeAlls(toks[1..], Start(toks[0], colon, T), colon, T);
    ParseDecided(toks, colon, T);
  }

  /** The colon-syntax line `allow all all all : all` stops at its third `all`. */
  lemma ThirdAllBeforeColon(T: Tables, toks: seq<string>)
    requires toks == ["allow", "all", "all", "all", ":", "all"]
    requires "allow" in T.decisions
    ensures ':' in Join(toks)
    ensures Parse(Join(toks), T) == Fail(4)
  {
    forall k | 0 <= k < |toks|
      ensures |toks[k]| > 0 && ' ' !in toks[k]
    {
    }
    TokensOfJoin(toks);
    InJoin(toks, 4, ':');
    ThirdAllRefused(T, true, toks);
  }

  /** A field name known neither as a subject nor as an object in the original syntax: code 3. */
  lemma UnknownLegacyField(T: Tables, toks: seq<string>)
    requires toks == ["deny", "bogus=1", "all"]
    requires "deny" in T.decisions
    requires "bogus" !in T.legacySubjects && "bogus" !in T.objects
    ensures ParseTokens(toks, false, T) == Fail(3)
  {
    var r0 := Start(toks[0], false, T);
    assert LeadLoop(toks[1..], r0, false, T) == Stopped(Returned(3)) by {
      assert toks[1] == "bogus" + "=" + "1";
      LegacyUnknownName("bogus", "1", r0, T);
      LeadLoopUnfold(toks[1..], r0, false, T);
    }
    ParseDecided(toks, false, T);
  }

  /** A field without '=' that is not `all`: code 5, in either syntax. */
  lemma MissingEquals(tok: string, T: Tables, colon: bool)
    requires "deny" in T.decisions
    requires |tok| > 0 && '=' !in tok && tok != "all"
    ensures ParseTokens(["deny", tok], colon, T) == Fail(5)
  {
    BareField(tok, Start("deny", colon, T), colon, T);
    ParseDecided(["deny", tok], colon, T);
  }

  /** A rule of objects only is refused with 6. */
  lemma MissingSubject(T: Tables, toks: seq<string>)
    requires toks == ["allow", "path=/x"]
    requires "allow" in T.decisions
    requires "path" !in T.legacySubjects && "path" in T.objects
    ensures ParseTokens(toks, false, T) == Fail(6)
  {
    var r0 := Start(toks[0], false, T);
    assert LeadLoop(toks[1..], r0, false, T) == Finish(AssignObjectSpec(r0, T.objects["path"], "/x")) by {
      assert toks[1] == "path" + "=" + "/x";
      LegacyObjectField("path", "/x", r0, T);
      LeadLoopUnfold(toks[1..], r0, false, T);
    }
    ParseDecided(toks, false, T);
  }

  /** A rule of subjects only is refused with 7. */
  lemma MissingObject(T: Tables, toks: seq<string>)
    requires toks == ["allow", "all"]
    requires "allow" in T.decisions
    ensures ParseTokens(toks, false, T) == Fail(7)
  {
    var r0 := Start(toks[0], false, T);
    assert LeadLoop(toks[1..], r0, false, T) == Finish(r0.(subjects := [SubjPred(AllSubj, Unset)])) by {
      AllField(r0, false, T);
      LeadLoopUnfold(toks[1..], r0, false, T);
    }
    ParseDecided(toks, false, T);
  }

  /**
   * The colon syntax needs a `name=value` field before its bare ':' (the ':'
   * is only understood by parse_new_format): `all : all` stops at the ':'
   * with code 5.
   */
  lemma ColonLineStartingWithAll(T: Tables, toks: seq<string>)
    requires toks == ["allow", "all", ":", "all"]
    requires "allow" in T.decisions
    ensures ParseTokens(toks, true, T) == Fail(5)
  {
    AllThenBareColon(toks[1..], Start(toks[0], true, T), T);
    ParseDecided(toks, true, T);
  }

  /**
   * A leading `all` is fine in the colon syntax when a field follows it:
   * `allow all exe=/x : all` has the subject wildcard, then the exe.
   */
  lemma LeadingAllThenField(T: Tables, toks: seq<string>)
    requires toks == ["allow", "all", "exe=/x", ":", "all"]
    requires "allow" in T.decisions
    requires "exe" in T.colonSubjects && T.colonSubjects["exe"] == Exe
    ensures ParseTokens(toks, true, T) ==
      Ok(Rule(0, T.decisions["allow"], OpenAcc, FmtColon,
              [SubjPred(AllSubj, Unset), SubjPred(Exe, Str("/x"))], [ObjPred(AllObj, "", 0)]))
  {
    AllExeColonAll(toks[1..], Start(toks[0], true, T), T);
    ParseDecided(toks, true, T);
  }

  /** A `perm=` value other than open, execute and any: code 2. */
  lemma UnknownPermission(T: Tables, toks: seq<string>)
    requires toks == ["allow", "perm=write", "all", ":", "all"]
    requires "allow" in T.decisions
    ensures ParseTokens(toks, true, T) == Fail(2)
  {
    var r0 := Start(toks[0], true, T);
    assert LeadLoop(toks[1..], r0, true, T) == Stopped(Returned(2)) by {
      assert toks[1] == "perm" + "=" + "write";
      PermField("write", r0, T);
      LeadLoopUnfold(toks[1..], r0, true, T);
    }
    ParseDecided(toks, true, T);
  }

  /**
   * After the first field of the colon syntax the result of the remaining
   * fields is not checked: a rule with `perm=any` is accepted although a
   * field without '=' follows its object.
   */
  lemma TrailingErrorIgnored(T: Tables, toks: seq<string>)
    requires toks == ["allow", "perm=any", "exe=/x", ":", "path=/y", "bogus"]
    requires "allow" in T.decisions
    requires "exe" in T.colonSubjects && T.colonSubjects["exe"] == Exe
    requires "path" in T.objects && T.objects["path"] == Path
    ensures ParseTokens(toks, true, T) ==
      Ok(Rule(0, T.decisions["allow"], AnyAcc, FmtColon, [SubjPred(Exe, Str("/x"))], [ObjPred(Path, "/y", 0)]))
  {
    PermAnyExeColonPathBogus(toks[1..], Start(toks[0], true, T), T);
    ParseDecided(toks, true, T);
  }

  /** The value check refuses the pattern name `normal`. */
  lemma NormalRefused(accounts: map<string, int>)
    ensures SubjectValue(Pattern, "normal", accounts) == BadValue
  {
    assert "normal" != "ld_so" && "normal" != "static";
  }

  /**
   * `pattern=normal` is refused by the value check, and the refusal is not
   * passed on: the condition is dropped and the rest of the rule stands.
   */
  lemma NormalPatternDropped(T: Tables, toks: seq<string>)
    requires toks == ["allow", "uid=0", "pattern=normal", ":", "all"]
    requires "allow" in T.decisions
    requires "uid" in T.colonSubjects && T.colonSubjects["uid"] == Uid
    requires "pattern" in T.colonSubjects && T.colonSubjects["pattern"] == Pattern
    ensures SubjectValue(Pattern, "normal", T.accounts) == BadValue
    ensures ParseTokens(toks, true, T) ==
      Ok(Rule(0, T.decisions["allow"], OpenAcc, FmtColon, [SubjPred(Uid, Num(0))], [ObjPred(AllObj, "", 0)]))
  {
    NormalRefused(T.accounts);
    assert ParseTokens(toks, true, T) ==
      Ok(Rule(0, T.decisions["allow"], OpenAcc, FmtColon, [SubjPred(Uid, Num(0))], [ObjPred(AllObj, "", 0)])) by {
      var r0 := Start(toks[0], true, T);
      var r := r0.(subjects := r0.subjects + [SubjPred(Uid, Num(0))], objects := r0.objects + [ObjPred(AllObj, "", 0)]);
      assert LeadLoop(toks[1..], r0, true, T) == Finish(r) by {
        UidNormalColonAll(toks[1..], r0, T);
      }
      ParseDecided(toks, true, T);
    }
  }

  /**
   * The syntax is chosen by a ':' anywhere on the line: a line of the
   * original syntax whose object value holds a ':' is read in the colon
   * syntax, where its object name is taken for an unknown subject name,
   * so it loses its object and is refused with 7.
   */
  lemma ColonInValueSwitchesSyntax(T: Tables, toks: seq<string>)
    requires toks == ["allow", "exe=/x", "path=/a:b"]
    requires "allow" in T.decisions
    requires "exe" in T.legacySubjects && T.legacySubjects["exe"] == Exe
    requires "exe" in T.colonSubjects && T.colonSubjects["exe"] == Exe
    requires "path" !in T.legacySubjects && "path" !in T.colonSubjects
    requires "path" in T.objects && T.objects["path"] == Path
    ensures ParseTokens(toks, false, T).Ok?
    ensures Parse(Join(toks), T) == Fail(7)
  {
    LegacyExeAndPath(toks[1..], Start(toks[0], false, T), T);
    ParseDecided(toks, false, T);
    ColonExeAndUnknownName(toks[1..], Start(toks[0], true, T), T);
    ParseDecided(toks, true, T);
    JoinedLineHasColon(toks);
  }
}
