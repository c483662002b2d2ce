/*
 * The matcher of src/library/rules.c: whether one rule applies to one
 * access event (rule_evaluate and the check_* helpers), the system
 * directory macros, and the load-pattern classifier that advances a
 * process's ProcInfo record.
 *
 * Each C routine appears twice: as a function saying what it computes
 * (DirMatch, PatternStep, SubjectsFrom, ObjectsHold, Evaluate), and as a
 * method that renders the C code step by step on the ProcInfo object and
 * is proved to agree with that function.
 */
module Matcher {
  import opened CString
  import opened Policy

  /**
   * Path of the system's runtime linker. It is defined outside rules.c and
   * left open here.
   */
  const SYSTEM_LD_SO: string

  /** A subject attribute of an event: a number, and for string kinds a string that may be NULL. */
  datatype SubjAttr = SubjAttr(val: int, str: Option<string>)

  /** An object attribute of an event: a length or trust flag, and a string that may be NULL. */
  datatype ObjAttr = ObjAttr(len: nat, o: Option<string>)

  /**
   * An access event: whether it is an execute-permission request
   * (FAN_OPEN_EXEC_PERM), and the attributes get_subj_attr and get_obj_attr
   * find for it; a kind missing from a map is a NULL lookup.
   */
  datatype Event = Event(execPerm: bool, subj: map<SubjKind, SubjAttr>, obj: map<ObjKind, ObjAttr>)

  /** is_subj_trusted: the process carries a non-zero trust attribute. */
  predicate SubjTrusted(e: Event)
  {
    SubjTrust in e.subj && e.subj[SubjTrust].val != 0
  }

  /** is_obj_trusted: the file carries a trust attribute with non-zero length. */
  predicate ObjTrusted(e: Event)
  {
    ObjTrust in e.obj && e.obj[ObjTrust].len != 0
  }

  /** check_access: whether the rule's `perm` covers the kind of access requested. */
  function CheckAccess(a: Access, execPerm: bool): (m: bool)
    ensures a == AnyAcc ==> m
    ensures a == ExecAcc ==> (m <==> execPerm)
    ensures a == OpenAcc ==> (m <==> !execPerm)
  {
    if a == AnyAcc then true
    else
      var perm := if execPerm then ExecAcc else OpenAcc;
      a == perm
  }

  // ---------------------------------------------------------------------
  // System directory macros
  // ---------------------------------------------------------------------

  /** An entry of a name table: a string and its length (nv_t). */
  datatype NameLen = NameLen(value: nat, name: string)

  /** The system directories, /etc/ first, each with its length. */
  const DIRS: seq<NameLen> := [
    NameLen(5, "/etc/"), NameLen(5, "/usr/"), NameLen(5, "/bin/"), NameLen(6, "/sbin/"),
    NameLen(5, "/lib/"), NameLen(7, "/lib64/"), NameLen(13, "/usr/libexec/")]

  /** Some system directory at table index `i` or later is a prefix of `path`. */
  predicate UnderDirs(i: nat, path: string)
  {
    exists j :: i <= j < |DIRS| && IsPrefix(DIRS[j].name, path)
  }

  /** check_dirs: scan the table from index `i` for a prefix of `path`. */
  method CheckDirs(i: nat, path: string) returns (m: bool)
    ensures m <==> UnderDirs(i, path)
  {
    var j := i;
    while j < |DIRS|
      invariant i <= j
      invariant forall t :: i <= t < j && t < |DIRS| ==> !IsPrefix(DIRS[t].name, path)
    {
      StrnEqIsPrefix(path, DIRS[j].name);
      if StrnEq(path, DIRS[j].name, DIRS[j].value) {
        return true;
      }
      j := j + 1;
    }
    return false;
  }

  /**
   * The verdict of a directory test of rule value `pattern`, whose length is
   * taken to be `len`, against the event's `path`: the two macros scan the
   * system directories, a 10-character "untrusted" asks for an untrusted
   * file, anything else compares the first `len` characters.
   */
  predicate DirMatch(pattern: string, len: nat, path: string, trusted: bool)
  {
    if len == 8 && pattern == "execdirs" then UnderDirs(1, path)
    else if len == 10 && pattern == "systemdirs" then UnderDirs(0, path)
    else if len == 10 && pattern == "untrusted" then !trusted
    else StrnEq(path, pattern, len)
  }

  /** The directory test shared by obj_dir_test and subj_dir_test. */
  method DirTest(pattern: string, len: nat, path: string, trusted: bool) returns (m: bool)
    ensures m == DirMatch(pattern, len, path, trusted)
  {
    if len == 8 && pattern == "execdirs" {
      m := CheckDirs(1, path);
    } else if len == 10 && pattern == "systemdirs" {
      m := CheckDirs(0, path);
    } else if len == 10 && pattern == "untrusted" {
      m := !trusted;
    } else {
      m := StrnEq(path, pattern, len);
    }
  }

  /** obj_dir_test: the rule's `dir=` object against the file path, using the cached length. */
  method ObjDirTest(o: ObjPred, path: string, trusted: bool) returns (m: bool)
    ensures m == DirMatch(o.o, o.len, path, trusted)
  {
    m := DirTest(o.o, o.len, path, trusted);
  }

  /** subj_dir_test: the rule's `exe_dir=` subject against the executable path, using strlen. */
  method SubjDirTest(pattern: string, path: string, trusted: bool) returns (m: bool)
    ensures m == DirMatch(pattern, |pattern|, path, trusted)
  {
    m := DirTest(pattern, |pattern|, path, trusted);
  }

  /**
   * When the length is the true length of the rule value, as the parser
   * stores it, a directory test is one of the two macros or a prefix test;
   * the "untrusted" branch is never taken because that word has nine
   * characters, so `untrusted` is an ordinary prefix and trust is ignored.
   */
  lemma DirMatchOfParsed(pattern: string, path: string, trusted: bool)
    ensures DirMatch(pattern, |pattern|, path, trusted) ==
      if pattern == "execdirs" then UnderDirs(1, path)
      else if pattern == "systemdirs" then UnderDirs(0, path)
      else IsPrefix(pattern, path)
  {
    StrnEqIsPrefix(path, pattern);
  }

  /** `systemdirs` is `execdirs` plus /etc/. */
  lemma SystemDirsAreExecDirsAndEtc(path: string)
    ensures UnderDirs(0, path) <==> IsPrefix("/etc/", path) || UnderDirs(1, path)
  {
    if UnderDirs(0, path) {
      var j :| 0 <= j < |DIRS| && IsPrefix(DIRS[j].name, path);
      assert j == 0 || UnderDirs(1, path);
    }
    if IsPrefix("/etc/", path) {
      assert IsPrefix(DIRS[0].name, path);
    }
  }

  /** A file under /etc/ is in `systemdirs` but not in `execdirs`. */
  lemma EtcIsNotAnExecDir()
    ensures UnderDirs(0, "/etc/passwd")
    ensures !UnderDirs(1, "/etc/passwd")
  {
    assert IsPrefix(DIRS[0].name, "/etc/passwd");
    forall j | 1 <= j < |DIRS|
      ensures !IsPrefix(DIRS[j].name, "/etc/passwd")
    {
      var path := "/etc/passwd";
      assert path[1] == 'e';
      assert DIRS[j].name[1] != 'e';
    }
  }

  // ---------------------------------------------------------------------
  // Load-pattern classifier
  // ---------------------------------------------------------------------

  /**
   * The states of a ProcInfo record that rules.c names, and any other state
   * with its place relative to STATE_FULL (the enumeration is defined
   * outside rules.c; Collecting, StaticReopen and StaticPartial come before
   * Full, the resolved states after it).
   */
  datatype ProcState =
    | Collecting | StaticReopen | StaticPartial | Full
    | Normal | NotElf | LdSo | Static | BadElf
    | Other(id: nat, beforeFull: bool)

  /** The test `state < STATE_FULL`. */
  predicate BeforeFull(s: ProcState)
  {
    match s
    case Collecting => true
    case StaticReopen => true
    case StaticPartial => true
    case Other(_, before) => before
    case _ => false
  }

  /** The bits of elf_info that rules.c tests; `other` stands for any further set bit. */
  datatype ElfInfo = ElfInfo(isElf: bool, hasDynamic: bool, hasError: bool, other: bool)
  {
    /** elf_info == 0 */
    predicate IsZero()
    {
      !isElf && !hasDynamic && !hasError && !other
    }
  }

  /** The part of a ProcInfo record the classifier reads and writes. */
  datatype ProcView = ProcView(state: ProcState, elf: ElfInfo, path1: Option<string>, path2: Option<string>)

  /** clear_proc_info: drop the cached paths, keep the state. */
  function Cleared(p: ProcView): ProcView
  {
    p.(path1 := None, path2 := None)
  }

  /** The configured pattern value names the family the resolved state belongs to. */
  predicate PatternHolds(val: int, s: ProcState)
  {
    (val == PATTERN_NORMAL_VAL && s == Normal) ||
    (val == PATTERN_LD_SO_VAL && s == LdSo) ||
    (val == PATTERN_STATIC_VAL && (s == StaticReopen || s == StaticPartial || s == Static))
  }

  /** make_decision: compare the pattern value with the state, then drop the paths. */
  function Decided(val: int, p: ProcView): (int, ProcView)
  {
    (if PatternHolds(val, p.state) then 1 else 0, Cleared(p))
  }

  /**
   * Before STATE_FULL, an ELF record that is neither a static program still
   * collecting, nor STATIC_PARTIAL, nor an execute request through the
   * runtime linker: the classifier has not enough information yet.
   */
  predicate Undecided(p: ProcView, execPerm: bool)
  {
    BeforeFull(p.state) && !p.elf.IsZero() &&
    !(p.elf.isElf && p.state == Collecting && !p.elf.hasDynamic) &&
    p.state != StaticPartial &&
    !(execPerm && p.path1 == Some(SYSTEM_LD_SO))
  }

  /**
   * subj_pattern_test: the result (1 match, 0 no match, -1 error) and the
   * record afterwards, for pattern value `val` and an event that is or is
   * not an execute-permission request.
   */
  function PatternStep(val: int, p: ProcView, execPerm: bool): (res: (int, ProcView))
    ensures res.0 == -1 || res.0 == 0 || res.0 == 1
    ensures res.0 == -1 <==> p.state == Full && p.elf.hasError
    ensures res.0 == 1 ==> PatternHolds(val, res.1.state)
    ensures res.1.state != Full
    ensures res.1.elf == p.elf
    ensures res.1 == p || (res.1.path1 == None && res.1.path2 == None)
    // not enough information: no match, and the record is left alone
    ensures Undecided(p, execPerm) ==> res == (0, p)
    // every other outcome drops the paths
    ensures !Undecided(p, execPerm) ==> res.1.path1 == None && res.1.path2 == None
    // every decision compares the pattern value with the state it leaves
    ensures !Undecided(p, execPerm) && res.0 != -1 && !(BeforeFull(p.state) && p.elf.IsZero()) ==>
      (res.0 == 1 <==> PatternHolds(val, res.1.state))
    ensures BeforeFull(p.state) && p.elf.IsZero() ==> res == (0, Cleared(p.(state := NotElf)))
    ensures p.state == StaticPartial && !p.elf.IsZero() ==> res.1.state == StaticPartial
    ensures !BeforeFull(p.state) && p.state != Full ==>
      res.1.state == p.state && (res.0 == 1 <==> PatternHolds(val, p.state))
  {
    if BeforeFull(p.state) then
      if p.elf.IsZero() then
        (0, Cleared(p.(state := NotElf)))
      else if p.elf.isElf && p.state == Collecting && !p.elf.hasDynamic then
        Decided(val, p.(state := StaticReopen))
      else if p.state == StaticPartial then
        Decided(val, p)
      else if execPerm && p.path1 == Some(SYSTEM_LD_SO) then
        Decided(val, p.(state := LdSo))
      else
        (0, p)
    else if p.state == Full then
      if p.elf.hasError then
        (-1, Cleared(p.(state := BadElf)))
      else
        Decided(val, p.(state := if p.path1 == Some(SYSTEM_LD_SO) then LdSo else Normal))
    else
      Decided(val, p)
  }

  /**
   * A dynamically linked program whose first observed path is the runtime
   * linker, on an execute request, is classified ld_so and matches only the
   * ld_so pattern.
   */
  lemma LdSoScenario(val: int, p: ProcView)
    requires p.state == Collecting && p.elf.isElf && p.elf.hasDynamic
    requires p.path1 == Some(SYSTEM_LD_SO)
    ensures PatternStep(val, p, true).1.state == LdSo
    ensures PatternStep(val, p, true).0 == 1 <==> val == PATTERN_LD_SO_VAL
  {
  }

  /** An ELF file without a dynamic section, still collecting, matches only the static pattern. */
  lemma StaticScenario(val: int, p: ProcView, execPerm: bool)
    requires p.state == Collecting && p.elf.isElf && !p.elf.hasDynamic
    ensures PatternStep(val, p, execPerm).1.state == StaticReopen
    ensures PatternStep(val, p, execPerm).0 == 1 <==> val == PATTERN_STATIC_VAL
  {
  }

  /**
   * At STATE_FULL without error, the runtime linker as first path means
   * ld_so, anything else normal, and the match is decided on that state.
   */
  lemma FullResolves(val: int, p: ProcView, execPerm: bool)
    requires p.state == Full && !p.elf.hasError
    ensures PatternStep(val, p, execPerm).1.state == if p.path1 == Some(SYSTEM_LD_SO) then LdSo else Normal
    ensures PatternStep(val, p, execPerm).0 == 1 <==>
      if p.path1 == Some(SYSTEM_LD_SO) then val == PATTERN_LD_SO_VAL else val == PATTERN_NORMAL_VAL
  {
  }

  /** A STATIC_PARTIAL ELF record is decided as static: only the static pattern matches. */
  lemma StaticPartialScenario(val: int, p: ProcView, execPerm: bool)
    requires p.state == StaticPartial && !p.elf.IsZero()
    ensures PatternStep(val, p, execPerm).1 == Cleared(p)
    ensures PatternStep(val, p, execPerm).0 == 1 <==> val == PATTERN_STATIC_VAL
  {
  }

  class ProcInfo {
    var state: ProcState
    var elf: ElfInfo
    var path1: Option<string>
    var path2: Option<string>

    function View(): ProcView
      reads this
    {
      ProcView(state, elf, path1, path2)
    }

    constructor (state: ProcState, elf: ElfInfo, path1: Option<string>, path2: Option<string>)
      ensures View() == ProcView(state, elf, path1, path2)
    {
      this.state := state;
      this.elf := elf;
      this.path1 := path1;
      this.path2 := path2;
    }

    /** clear_proc_info: release the cached paths. */
    method Clear()
      modifies this
      ensures View() == Cleared(old(View()))
    {
      path1 := None;
      path2 := None;
    }
  }

  /**
   * subj_pattern_test on the record: the record moves exactly as PatternStep
   * says. The record must hold a first path once it is FULL (the code reads
   * it without a NULL check).
   */
  method SubjPatternTest(val: int, pinfo: ProcInfo, execPerm: bool) returns (rc: int)
    requires pinfo.state == Full ==> pinfo.path1.Some?
    modifies pinfo
    ensures (rc, pinfo.View()) == PatternStep(val, old(pinfo.View()), execPerm)
  {
    rc := 0;
    if BeforeFull(pinfo.state) {
      if pinfo.elf.IsZero() {
        pinfo.state := NotElf;
        pinfo.Clear();
        return;
      } else if pinfo.elf.isElf && pinfo.state == Collecting && !pinfo.elf.hasDynamic {
        pinfo.state := StaticReopen;
      } else if pinfo.state == StaticPartial {
      } else if execPerm && pinfo.path1.Some? && pinfo.path1.value == SYSTEM_LD_SO {
        pinfo.state := LdSo;
      } else {
        return;
      }
    } else if pinfo.state == Full {
      if pinfo.elf.hasError {
        pinfo.state := BadElf;
        pinfo.Clear();
        return -1;
      }
      if pinfo.path1.value == SYSTEM_LD_SO {
        pinfo.state := LdSo;
      } else {
        pinfo.state := Normal;
      }
    }
    // make_decision
    if val == PATTERN_NORMAL_VAL {
      if pinfo.state == Normal {
        rc := 1;
      }
    } else if val == PATTERN_LD_SO_VAL {
      if pinfo.state == LdSo {
        rc := 1;
      }
    } else if val == PATTERN_STATIC_VAL {
      if pinfo.state == StaticReopen || pinfo.state == StaticPartial || pinfo.state == Static {
        rc := 1;
      }
    }
    pinfo.Clear();
  }

  // ---------------------------------------------------------------------
  // Subjects
  // ---------------------------------------------------------------------

  /**
   * Whether one subject condition other than `pattern` holds for the event.
   * The wildcard and a kind the event does not carry (or carries with a NULL
   * string) impose nothing; `exe_dir` is a directory test; `exe=untrusted`
   * asks for an untrusted process; other string kinds compare exactly, and
   * numeric kinds compare values.
   */
  predicate SubjHolds(s: SubjPred, e: Event)
    requires WellFormedSubject(s) && s.kind != Pattern
  {
    if s.kind == AllSubj || s.kind !in e.subj then true
    else if IsStringKind(s.kind) then
      var a := e.subj[s.kind];
      a.str.None? ||
      if s.kind == ExeDir then DirMatch(s.value.s, |s.value.s|, a.str.value, SubjTrusted(e))
      else if s.kind == Exe && s.value.s == "untrusted" then !SubjTrusted(e)
      else a.str.value == s.value.s
    else e.subj[s.kind].val == s.value.n
  }

  /**
   * check_subject over the conditions `subs`, in order, with the process
   * record `p`: the verdict and the record afterwards. A `pattern` condition
   * runs the classifier; its 0 fails at once and its -1 passes at once,
   * without looking at the conditions after it.
   */
  function SubjectsFrom(subs: seq<SubjPred>, e: Event, p: ProcView): (res: (bool, ProcView))
    requires WellFormedSubjects(subs)
    ensures res.1.state == Full ==> res.1 == p
    ensures (forall k :: 0 <= k < |subs| ==> subs[k].kind != Pattern) ==> res.1 == p
    ensures !res.0 ==> exists k :: 0 <= k < |subs| && (subs[k].kind == Pattern || !SubjHolds(subs[k], e))
    decreases |subs|
  {
    if |subs| == 0 then (true, p)
    else if subs[0].kind == Pattern then
      var (rc, q) := PatternStep(subs[0].value.n, p, e.execPerm);
      if rc == 0 then (false, q)
      else if rc == -1 then (true, q)
      else
        var r := SubjectsFrom(subs[1..], e, q);
        assert !r.0 ==> subs[0].kind == Pattern;
        r
    else if SubjHolds(subs[0], e) then
      var r := SubjectsFrom(subs[1..], e, p);
      assert !r.0 ==> exists k :: 0 <= k < |subs| && (subs[k].kind == Pattern || !SubjHolds(subs[k], e)) by {
        if !r.0 {
          var k :| 0 <= k < |subs[1..]| && (subs[1..][k].kind == Pattern || !SubjHolds(subs[1..][k], e));
          assert subs[k + 1] == subs[1..][k];
        }
      }
      r
    else (false, p)
  }

  /** Without a `pattern` condition the subject check is the conjunction of its conditions. */
  lemma {:induction false} SubjectsWithoutPattern(subs: seq<SubjPred>, e: Event, p: ProcView)
    requires WellFormedSubjects(subs)
    requires forall k :: 0 <= k < |subs| ==> subs[k].kind != Pattern
    ensures SubjectsFrom(subs, e, p) == ((forall k :: 0 <= k < |subs| ==> SubjHolds(subs[k], e)), p)
    decreases |subs|
  {
    if |subs| > 0 {
      SubjectsWithoutPattern(subs[1..], e, p);
      assert forall k :: 1 <= k < |subs| ==> subs[k] == subs[1..][k - 1];
    }
  }

  /**
   * A classifier error passes the whole subject check: when the conditions
   * before a `pattern` condition all hold and the record is FULL with an ELF
   * error, the check passes whatever the conditions after it say.
   */
  lemma {:induction false} PatternErrorPasses(subs: seq<SubjPred>, i: nat, e: Event, p: ProcView)
    requires WellFormedSubjects(subs)
    requires i < |subs| && subs[i].kind == Pattern
    requires forall k :: 0 <= k < i ==> subs[k].kind != Pattern && SubjHolds(subs[k], e)
    requires p.state == Full && p.elf.hasError
    ensures SubjectsFrom(subs, e, p).0
    ensures SubjectsFrom(subs, e, p).1.state == BadElf
    decreases i
  {
    if i > 0 {
      PatternErrorPasses(subs[1..], i - 1, e, p);
      assert forall k :: 0 <= k < i - 1 ==> subs[1..][k] == subs[k + 1];
    }
  }

  /** `exe=untrusted` holds exactly for a process that is not trusted, a missing trust attribute counting as untrusted. */
  lemma UntrustedExe(e: Event, path: string)
    requires Exe in e.subj && e.subj[Exe].str == Some(path)
    ensures SubjHolds(SubjPred(Exe, Str("untrusted")), e) <==>
      SubjTrust !in e.subj || e.subj[SubjTrust].val == 0
  {
  }

  /**
   * check_subject on the rule's conditions: the verdict and the process
   * record afterwards are those SubjectsFrom gives. The record must hold a
   * first path if it is FULL.
   */
  method CheckSubject(subs: seq<SubjPred>, e: Event, pinfo: ProcInfo) returns (m: bool)
    requires WellFormedSubjects(subs)
    requires pinfo.state == Full ==> pinfo.path1.Some?
    modifies pinfo
    ensures (m, pinfo.View()) == SubjectsFrom(subs, e, old(pinfo.View()))
  {
    var cnt := 0;
    while cnt < |subs|
      invariant cnt <= |subs|
      invariant pinfo.state == Full ==> pinfo.path1.Some?
      invariant SubjectsFrom(subs[cnt..], e, pinfo.View()) == SubjectsFrom(subs, e, old(pinfo.View()))
    {
      assert subs[cnt..][0] == subs[cnt] && subs[cnt..][1..] == subs[cnt + 1..];
      var s := subs[cnt];
      if s.kind != AllSubj {
        if s.kind !in e.subj && s.kind != Pattern {
          cnt := cnt + 1;
          continue;
        }
        if s.kind == Pattern {
          var rc := SubjPatternTest(s.value.n, pinfo, e.execPerm);
          if rc == 0 {
            return false;
          }
          if rc == -1 {
            return true;
          }
        } else if IsStringKind(s.kind) {
          var subj := e.subj[s.kind];
          if subj.str.None? {
            cnt := cnt + 1;
            continue;
          }
          if s.kind == ExeDir {
            var t := SubjDirTest(s.value.s, subj.str.value, SubjTrusted(e));
            if !t {
              return false;
            }
          } else if s.kind == Exe && s.value.s == "untrusted" {
            if SubjTrusted(e) {
              return false;
            }
          } else if subj.str.value != s.value.s {
            return false;
          }
        } else if e.subj[s.kind].val != s.value.n {
          return false;
        }
      }
      cnt := cnt + 1;
    }
    return true;
  }

  // ---------------------------------------------------------------------
  // Objects
  // ---------------------------------------------------------------------

  /**
   * Whether object condition `k` of rule `r` holds for the event. The
   * wildcard and a kind the event does not carry impose nothing, nor does a
   * NULL string except for `trust`. `dir` is a directory test. A `path`
   * condition whose rule has an `exe` or `exe_dir` subject condition
   * `untrusted` at the same index asks for an untrusted file instead of
   * comparing paths. `trust` compares the first character of the rule value
   * with '1' for a trusted file and '0' otherwise. `ftype=any` always holds.
   * Anything else compares exactly.
   */
  predicate ObjHolds(r: Rule, k: nat, e: Event)
    requires k < |r.objects|
  {
    var o := r.objects[k];
    if o.kind == AllObj || o.kind !in e.obj then true
    else
      var a := e.obj[o.kind];
      if a.o.None? && o.kind != ObjTrust then true
      else if o.kind == ODir then DirMatch(o.o, o.len, a.o.value, ObjTrusted(e))
      else if o.kind == Path && k < |r.subjects| &&
        (r.subjects[k].kind == Exe || r.subjects[k].kind == ExeDir) &&
        r.subjects[k].value == Str("untrusted")
      then !ObjTrusted(e)
      else if o.kind == ObjTrust then
        |o.o| > 0 && o.o[0] == (if a.len == 0 then '0' else '1')
      else if o.kind == FType && o.o == "any" then true
      else a.o.value == o.o
  }

  /** Every object condition of the rule holds. */
  predicate ObjectsHold(r: Rule, e: Event)
  {
    forall k :: 0 <= k < |r.objects| ==> ObjHolds(r, k, e)
  }

  /** check_object: the rule's object conditions all hold for the event. */
  method CheckObject(r: Rule, e: Event) returns (m: bool)
    ensures m <==> ObjectsHold(r, e)
  {
    var cnt := 0;
    while cnt < |r.objects|
      invariant cnt <= |r.objects|
      invariant forall k :: 0 <= k < cnt ==> ObjHolds(r, k, e)
    {
      var o := r.objects[cnt];
      if o.kind != AllObj {
        if o.kind !in e.obj || (e.obj[o.kind].o.None? && o.kind != ObjTrust) {
          cnt := cnt + 1;
          continue;
        }
        var obj := e.obj[o.kind];
        if o.kind == ODir {
          var t := ObjDirTest(o, obj.o.value, ObjTrusted(e));
          if !t {
            assert !ObjHolds(r, cnt, e);
            return false;
          }
        } else if o.kind == Path && cnt < |r.subjects| &&
          (r.subjects[cnt].kind == Exe || r.subjects[cnt].kind == ExeDir) &&
          r.subjects[cnt].value == Str("untrusted")
        {
          if ObjTrusted(e) {
            assert !ObjHolds(r, cnt, e);
            return false;
          }
        } else if o.kind == ObjTrust {
          var val := if obj.len == 0 then '0' else '1';
          if |o.o| == 0 || val != o.o[0] {
            assert !ObjHolds(r, cnt, e);
            return false;
          }
        } else if o.kind == FType && o.o == "any" {
          // any file type matches
        } else if obj.o.value != o.o {
          assert !ObjHolds(r, cnt, e);
          return false;
        }
      }
      cnt := cnt + 1;
    }
    return true;
  }

  /** A `trust` condition holds iff its first character is '1' for a trusted file and '0' for another. */
  lemma TrustObject(r: Rule, k: nat, e: Event)
    requires k < |r.objects| && r.objects[k].kind == ObjTrust && ObjTrust in e.obj
    ensures ObjHolds(r, k, e) <==>
      |r.objects[k].o| > 0 && r.objects[k].o[0] == if ObjTrusted(e) then '1' else '0'
  {
  }

  /**
   * The `untrusted` test on a path is chosen by the subject condition at the
   * same index, not by the rule's content: with `exe=untrusted` first, a
   * trusted file fails its `path` condition even when the paths are equal,
   * and with the same subject second, the path is compared as usual.
   */
  lemma PathPairedBySlot(e: Event)
    requires Path in e.obj && e.obj[Path].o == Some("/bin/x")
    requires ObjTrusted(e)
    ensures !ObjHolds(Rule(0, Decision(true, false, false), AnyAcc, FmtColon,
      [SubjPred(Exe, Str("untrusted"))], [ObjPred(Path, "/bin/x", 0)]), 0, e)
    ensures ObjHolds(Rule(0, Decision(true, false, false), AnyAcc, FmtColon,
      [SubjPred(Uid, Num(0)), SubjPred(Exe, Str("untrusted"))], [ObjPred(Path, "/bin/x", 0)]), 0, e)
  {
  }

  // ---------------------------------------------------------------------
  // Rule evaluation
  // ---------------------------------------------------------------------

  /**
   * rule_evaluate: the rule's opinion on the event and the process record
   * afterwards. Access is checked first, then subjects, then objects; the
   * first check that fails gives no opinion, and when all pass the opinion
   * is the rule's decision.
   */
  function Evaluate(r: Rule, e: Event, p: ProcView): (res: (Opinion, ProcView))
    requires WellFormedSubjects(r.subjects)
    ensures res.0 == NoOpinion || res.0 == Decide(r.d)
    ensures res.0.Decide? <==>
      CheckAccess(r.a, e.execPerm) && SubjectsFrom(r.subjects, e, p).0 && ObjectsHold(r, e)
    ensures !CheckAccess(r.a, e.execPerm) ==> res.1 == p
    ensures CheckAccess(r.a, e.execPerm) ==> res.1 == SubjectsFrom(r.subjects, e, p).1
  {
    if !CheckAccess(r.a, e.execPerm) then (NoOpinion, p)
    else
      var (sm, q) := SubjectsFrom(r.subjects, e, p);
      if !sm then (NoOpinion, q)
      else if !ObjectsHold(r, e) then (NoOpinion, q)
      else (Decide(r.d), q)
  }

  /** rule_evaluate on a rule and a process record. */
  method RuleEvaluate(r: Rule, e: Event, pinfo: ProcInfo) returns (op: Opinion)
    requires WellFormedSubjects(r.subjects)
    requires pinfo.state == Full ==> pinfo.path1.Some?
    modifies pinfo
    ensures (op, pinfo.View()) == Evaluate(r, e, old(pinfo.View()))
  {
    if !CheckAccess(r.a, e.execPerm) {
      return NoOpinion;
    }
    var d := CheckSubject(r.subjects, e, pinfo);
    if !d {
      return NoOpinion;
    }
    d := CheckObject(r, e);
    if !d {
      return NoOpinion;
    }
    return Decide(r.d);
  }
}
