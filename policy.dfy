/*
 * The vocabulary shared by the rule parser, the rule list and the matcher:
 * decisions, access kinds, subject and object attribute kinds, one rule
 * (the lnode of the original), the name tables the parser resolves field
 * names through, and the status an operation ends with.
 */
module Policy {

  /**
   * Capacity of the subject and object slot arrays of one rule. Its value is
   * set in rules.h, which is not part of this model, so it is left open here.
   */
  const MAX_FIELDS: nat

  /** Largest value of a C `long` on the LP64 targets: strtol's ERANGE bound. */
  const LONG_MAX: int := 0x7FFF_FFFF_FFFF_FFFF

  /** Stored values of the `pattern` subject field. */
  const PATTERN_NORMAL_VAL: int := 0
  const PATTERN_LD_SO_VAL: int := 1
  const PATTERN_STATIC_VAL: int := 2

  /** A rule's verdict: allow or deny, each optionally with audit and syslog reporting. */
  datatype Decision = Decision(allow: bool, audit: bool, syslog: bool)

  /** What a matched rule contributes: nothing, or its decision. */
  datatype Opinion = NoOpinion | Decide(d: Decision)

  /** The kind of access a rule applies to (its `perm=` field). */
  datatype Access = OpenAcc | ExecAcc | AnyAcc

  /** Which of the two rule syntaxes a line was written in. */
  datatype Format = FmtOrig | FmtColon

  /**
   * Subject (process) attribute kinds, in the order of their enumeration;
   * the kinds from Comm on carry string values, the ones before it numbers.
   */
  datatype SubjKind =
    | AllSubj | Auid | Uid | SessionId | Pid | Pattern | SubjTrust
    | Comm | Exe | ExeDir | ExeType | ExeDevice

  /** The test `type >= COMM`: the kind's value is a string. */
  predicate IsStringKind(k: SubjKind)
  {
    k.Comm? || k.Exe? || k.ExeDir? || k.ExeType? || k.ExeDevice?
  }

  /** Object (file) attribute kinds. */
  datatype ObjKind = AllObj | Path | ODir | Device | FType | ObjTrust | Sha256Hash

  /**
   * The value held by a subject slot: a number, a string, or `Unset` when
   * the parser never wrote the slot's number (the wildcard, and a non-digit
   * literal for a numeric kind other than uid and auid).
   */
  datatype SubjValue = Unset | Num(n: int) | Str(s: string)

  /** One subject condition of a rule. */
  datatype SubjPred = SubjPred(kind: SubjKind, value: SubjValue)

  /** One object condition of a rule; `len` caches the length for directory prefixes. */
  datatype ObjPred = ObjPred(kind: ObjKind, o: string, len: nat)

  /** A rule: its position in the list, verdict, access kind, syntax and conditions. */
  datatype Rule = Rule(
    num: nat,
    d: Decision,
    a: Access,
    format: Format,
    subjects: seq<SubjPred>,
    objects: seq<ObjPred>)

  /** A subject slot holds the kind of value its kind is compared by. */
  predicate WellFormedSubject(p: SubjPred)
  {
    if p.kind == AllSubj then true
    else if IsStringKind(p.kind) then p.value.Str?
    else p.value.Num?
  }

  predicate WellFormedSubjects(subjects: seq<SubjPred>)
  {
    forall k :: 0 <= k < |subjects| ==> WellFormedSubject(subjects[k])
  }

  /**
   * The lookups the parser consults, which live outside this file:
   * decision names (dec_name_to_val), subject field names in the original
   * and in the colon syntax (subj_name_to_val), object field names
   * (obj_name_to_val), and the account database (getpwnam).
   * A name missing from a map is the lookup's -1 (or NULL).
   */
  datatype Tables = Tables(
    decisions: map<string, Decision>,
    legacySubjects: map<string, SubjKind>,
    colonSubjects: map<string, SubjKind>,
    objects: map<string, ObjKind>,
    accounts: map<string, int>)

  /** A value or nothing (a C pointer that may be NULL). */
  datatype Option<T> = None | Some(value: T)

  /** How a C routine ends: it returns a code, or the whole process exits. */
  datatype Status = Returned(rc: int) | Exited(code: int)
}
