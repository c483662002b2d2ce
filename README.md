# fapolicyd rule engine, modelled in Dafny

fapolicyd is a file access policy daemon. Its policy is a list of rules, one
per line. A rule gives a decision (allow or deny, with optional audit and
syslog reporting), an optional access kind (`perm=open|execute|any`),
subject conditions on the process (`uid=`, `exe=`, `exe_dir=`, `pattern=`, …)
and object conditions on the file (`path=`, `dir=`, `ftype=`, `trust=`, …).
The first rule that matches an access event decides it.

Lines come in two syntaxes:

- the original syntax, `name=value` fields in any order, with `all` as a
  wildcard;
- the colon syntax, `decision [perm=…] subject-fields : object-fields`.

This project models `src/library/rules.c`. It covers three parts:

- the rule list, with its cursor and counter;
- the parser that turns one line into a rule node (`nv_split`,
  `parse_new_format`, `assign_subject`, `assign_object`);
- the matcher that decides whether one rule applies to one event
  (`rule_evaluate`, `check_access`, `check_subject`, `check_object`, the
  directory macros, and the load-pattern classifier `subj_pattern_test`).

The classifier advances the process's `proc_info` record.

Files:

- `cstring.dfy` (module `CString`): `strchr`, `strncmp`, `strtok` on blanks,
  and `strtol` on a leading run of digits, over Dafny strings.
- `policy.dfy` (module `Policy`): the shared vocabulary, which is decisions,
  access kinds, subject and object kinds, one rule, the name tables the
  parser consults, and the status a routine ends with (a return code or a
  process exit).
- `parser.dfy` (module `Parser`): the meaning of a line as functions that
  follow the C code token by token. The class `Node` is the node being
  filled in; its methods change it step by step and are proved to end where
  the functions say.
- `parse_facts.dfy` (module `ParseFacts`): what the parser does with each
  kind of field, where the `all` wildcards can end up, and whole example
  lines with the code each one ends with.
- `store.dfy` (module `Store`): the class `RuleList`. It holds the rules as
  a sequence, a cursor index (None plays NULL) and the count.
- `matcher.dfy` (module `Matcher`): the event, the `ProcInfo` record, the
  matching methods, and the functions they are proved against.
- `acceptance.dfy` (module `Acceptance`): which lines the parser accepts,
  for all inputs of the shapes listed below. A line of well-formed fields
  parses to exactly the rule those fields describe. This holds in the
  original syntax, and in the colon syntax with or without a leading
  `perm=` and with `all` wildcards on either side. Written out with blanks and read
  back, it gives the same rule. It fits the slot arrays whenever each side
  has at most MAX_FIELDS conditions.

In `parser.dfy` and `matcher.dfy` each C routine appears twice. A function
states what the routine computes. A method renders the C code step by step
and is proved to agree with that function.

The parser writes into fixed-size slot arrays without checking their bounds.
`Parser.Fits` states exactly when a line stays within them: every
`assign_subject` and `assign_object` call the line leads to must find a
free slot on its own side. The slot is written, its type first, before the
value is checked, so a refused value needs room too. The node methods
require this of the line.

Behaviour follows the code of `rules.c`, including these points where the
code departs from what one might expect:

- The value check for `pattern=` accepts only `ld_so` and `static`;
  `normal` is refused with 2. The matcher still knows the normal pattern
  value 0.
- In both syntaxes, a refused subject value is not reported. The
  condition is dropped and the rest of the rule stands, because
  `nv_split` and `parse_new_format` only react to `assign_subject`
  returning 3, which it never does.
- After the first `name=value` field of a colon-syntax line, the code
  returned by `parse_new_format` is dropped. An error later on the line
  only stops the parse; the rule is kept if it has a subject and an
  object.
- The colon syntax is chosen by a `:` anywhere on the line, values
  included.
- In the colon syntax, only `parse_new_format` understands the bare `:`.
  `nv_split` hands the line over at its first `name=value` field, so such a
  field must come before the `:`. `allow all : all` is refused with 5 at the
  `:`. `allow all exe=/x : all` is accepted, with the subject wildcard
  followed by the exe.
- The `untrusted` directory branch compares a length of 10 with a
  nine-letter word, so it is never taken for a parsed rule. `dir=untrusted`
  is then an ordinary prefix test.
- `check_object` pairs a `path` condition with the subject condition at the
  same index (`r->s[cnt]` with the object counter). The `untrusted` path
  test depends on slot positions.
- In `check_subject`, a classifier error (-1) makes the whole subject check
  pass at once, without looking at later conditions.

## Model

| member | source | states |
|---|---|---|
| CString.StrnEqIsPrefix | src/library/rules.c:530 | comparing a path against a table name over the name's length is exactly a prefix test |
| CString.TokensOfJoin | src/library/rules.c:367-384 | splitting a blank-separated line with `strtok` gives back the words it was made of |
| CString.IndexOfField | src/library/rules.c:387-390 | in `name=value` with no `=` in the name, `strchr` finds the `=` right after the name; the name and value are the two halves |
| CString.NotInJoin | src/library/rules.c:363-365 | a character other than the blank that no word holds is not in the line made of those words, so such a line is read in the original syntax |
| Parser.SubjectValue | src/library/rules.c:225-266 | string kinds keep the text; `pattern` accepts exactly `ld_so` and `static` (1 and 2) and refuses anything else; for the other numeric kinds, a leading digit gives the decimal value of the digit run, or a refusal above LONG_MAX; uid and auid without a leading digit give the account's id, or end the process for an unknown account; other numeric kinds without a leading digit leave the value unset |
| Parser.AssignSubjectSpec | src/library/rules.c:218-274 | returns 0 iff the value is accepted, and then exactly one subject slot of the given kind is appended; a refusal (2) or an exit leaves the rule unchanged; objects, decision, access and syntax never change |
| Parser.ObjectPred | src/library/rules.c:283-293 | the object slot keeps kind and text; the cached length is the text's length for `dir` and 0 for other kinds |
| Parser.AssignObjectSpec | src/library/rules.c:277-299 | assign_object appends exactly one object slot, the one ObjectPred describes, and changes nothing else |
| Parser.NewFormatStep | src/library/rules.c:308-348 | one token of parse_new_format returns 1, 2 or 5 or ends the process, or goes on: it keeps decision, access, syntax and number, adds at most one slot on the side being read, never goes back from objects to subjects, and switches to objects only at a bare `:`, which leaves the rule unchanged |
| Parser.NewFormat | src/library/rules.c:302-351 | parse_new_format ends with 0, 1, 2 or 5, or an exit; it only appends slots (the old ones are a prefix), at most one per token, and never changes decision, access, syntax or number |
| Parser.LeadStep | src/library/rules.c:385-447 | one field of nv_split returns 1, 2, 4 or 5 in the colon syntax and 3, 4 or 5 in the original one, or ends the process; it hands over only in the colon syntax and only on a `name=value` field; otherwise it keeps decision, syntax and number, adds at most one slot and keeps the old ones, and a field that does not hand over keeps the access kind |
| Parser.LeadLoop | src/library/rules.c:384-448 | the codes nv_split's loop can return are 1, 2, 4, 5 in the colon syntax and 3, 4, 5 in the original one; the original syntax never changes the access kind; no more slots than fields |
| Parser.ParseTokens | src/library/rules.c:358-461 | a line is skipped iff it is blank or a comment; an unknown decision is 1; errors are 1 to 7, never 3 in the colon syntax and never 2 in the original one; an accepted rule has the decision named first, at least one subject and one object, no more slots than fields, the chosen syntax, and open access in the original syntax; which lines of known fields are accepted, and as exactly which rule, is stated by Acceptance.LegacyLineAccepted, Acceptance.ColonLineAccepted and Acceptance.ColonPermLineAccepted for the line shapes they name |
| Parser.FinishUp | src/library/rules.c:450-460 | finish_up accepts the rule unchanged exactly when it has a subject and an object; 6 exactly when it has no subject; 7 exactly when it has a subject but no object |
| Parser.Parse | src/library/rules.c:363-371 | a line is skipped exactly when it has no word or its first word starts with `#`; an accepted rule is in the colon syntax exactly when the line holds a `:`, and has fewer slots than the line has words |
| Parser.Node.constructor | src/library/rules.c:473-479 | a fresh node has no subject and no object slots |
| Parser.Node.AssignSubject | src/library/rules.c:218-274 | the status and the node afterwards are those of AssignSubjectSpec; the slot arrays do not overflow |
| Parser.Node.AssignObject | src/library/rules.c:277-299 | the node gains exactly the object slot ObjectPred describes |
| Parser.Node.ParseNewFormat | src/library/rules.c:302-351 | for tokens that find room on their side (NewFormatFits), the loop over the remaining tokens ends with the status and node that NewFormat gives |
| Parser.Node.SplitField | src/library/rules.c:385-447 | for a field that finds room on its side (LeadRoom), one field of nv_split's loop: continue, hand over to parse_new_format, or return, with the node as LeadStep says; a return leaves the node unchanged |
| Parser.Node.SplitFields | src/library/rules.c:384-448 | for fields that fit (LeadLoopFits), nv_split's loop, including the hand-over at line 415, ends as LeadLoop says and never returns a hand-over |
| Parser.Node.NvSplit | src/library/rules.c:358-461 | for a line that Fits (every assign call it leads to finds a free slot on its side), the return value is the status of Parse on the line, and an accepted line leaves the node equal to the parsed rule |
| ParseFacts.LegacyWildcardsFirst | src/library/rules.c:431-442 | when no subject or object name of the tables stands for a wildcard kind (NoNamedWildcard), in the original syntax a subject wildcard can only be the first subject and an object wildcard only the first object |
| ParseFacts.LeadLoopKeepsWildcardsFirst | src/library/rules.c:384-448 | every run of original-syntax fields keeps the wildcards in first position |
| ParseFacts.LeadStepKeepsWildcardsFirst | src/library/rules.c:418-442 | one original-syntax field keeps the wildcards in first position |
| ParseFacts.ParseDecided | src/library/rules.c:373-382 | a line that starts with a known decision ends where the field loop and finish_up say |
| ParseFacts.ColonSubjectField | src/library/rules.c:403-416 | colon syntax: an accepted subject field fills the next subject slot, as the first field (which hands over) and as a later one (lines 314-323) |
| ParseFacts.ColonRefusedValueDropped | src/library/rules.c:411-415 | colon syntax: a refused subject value is dropped and parsing goes on with the rule unchanged |
| ParseFacts.ColonUnknownName | src/library/rules.c:404-410 | colon syntax: an unknown subject name is refused with 1, first or later (lines 315-320) |
| ParseFacts.ColonObjectField | src/library/rules.c:324-333 | after the `:`, an object name fills an object slot; any other name is refused with 2 |
| ParseFacts.PermField | src/library/rules.c:392-402 | `perm=execute` and `perm=any` set the access kind and hand over; `perm=open` keeps the default; any other value is refused with 2 |
| ParseFacts.AllField | src/library/rules.c:431-442 | `all` is the subject wildcard while there is no subject, otherwise the object wildcard while there is no object, otherwise refused with 4; in parse_new_format it is the wildcard of the side being read (lines 336-343) |
| ParseFacts.BareField | src/library/rules.c:443-447 | a field without `=` other than `all` is refused with 5 by nv_split; in parse_new_format a bare `:` switches to objects once and anything else is 5 (lines 334-348) |
| ParseFacts.LegacySubjectField | src/library/rules.c:418-430 | original syntax: an accepted subject field fills the next subject slot |
| ParseFacts.LegacyRefusedValueDropped | src/library/rules.c:428-430 | original syntax: a refused subject value is dropped and the loop goes on with the rule unchanged |
| ParseFacts.LegacyObjectField | src/library/rules.c:418-427 | original syntax: a name that is not a subject name but is an object name fills an object slot |
| ParseFacts.LegacyUnknownName | src/library/rules.c:418-426 | original syntax: a name known neither as a subject nor as an object is refused with 3 |
| ParseFacts.UidZero | src/library/rules.c:246-248 | `uid=0` stores user id 0 in the next subject slot |
| ParseFacts.UidDecimal | src/library/rules.c:246-254 | an instance of Parser.SubjectValue's decimal branch: `uid=42` stores the number 42, converted by strtol rather than looked up as an account |
| ParseFacts.ColonWildcardByPosition | src/library/rules.c:334-343 | `allow uid=0 all : all` gives uid 0 followed by the subject wildcard, and the object wildcard |
| ParseFacts.AllAfterObjectIsSubject | src/library/rules.c:431-437 | `allow path=/x all` in the original syntax makes `all` the subject wildcard, after the object |
| ParseFacts.ThirdAllRefused | src/library/rules.c:438-442 | a third `all` is refused with 4 in either syntax, whatever follows it on the line |
| ParseFacts.ThirdAllBeforeColon | src/library/rules.c:431-442 | the line `allow all all all : all` is read in the colon syntax and stops with 4 at its third `all` |
| ParseFacts.UnknownLegacyField | src/library/rules.c:418-426 | `deny bogus=1 all` in the original syntax is refused with 3 |
| ParseFacts.MissingEquals | src/library/rules.c:443-447 | a line whose first field has no `=` and is not `all` is refused with 5 in either syntax |
| ParseFacts.MissingSubject | src/library/rules.c:452-455 | a rule of objects only is refused with 6 |
| ParseFacts.MissingObject | src/library/rules.c:456-459 | a rule of subjects only is refused with 7 |
| ParseFacts.ColonLineStartingWithAll | src/library/rules.c:431-447 | `allow all : all` is refused with 5 at the bare `:`, because no `name=value` field has handed the line to parse_new_format |
| ParseFacts.LeadingAllThenField | src/library/rules.c:431-437 | `allow all exe=/x : all` is accepted in the colon syntax with the subject wildcard, then the exe, and the object wildcard |
| ParseFacts.UnknownPermission | src/library/rules.c:397-402 | `perm=write` is refused with 2 |
| ParseFacts.TrailingErrorIgnored | src/library/rules.c:415-416 | a colon-syntax rule is accepted although a field without `=` follows its object, because the code of parse_new_format is dropped |
| ParseFacts.NormalRefused | src/library/rules.c:233-244 | the value check refuses `normal` as a pattern name |
| ParseFacts.NormalPatternDropped | src/library/rules.c:233-244 | `pattern=normal` is refused by the value check, and in the colon syntax the condition silently disappears from an accepted rule |
| ParseFacts.ColonInValueSwitchesSyntax | src/library/rules.c:363-365 | a `:` inside an object value switches the line to the colon syntax, where the same line loses its object and is refused with 7 |
| Store.RuleList.constructor | src/library/rules.c:52-57 | rules_create: an empty list with a NULL cursor and count 0 |
| Store.RuleList.First | src/library/rules.c:60-63 | the cursor goes to the head, or NULL for an empty list |
| Store.RuleList.Last | src/library/rules.c:66-78 | the cursor goes to the tail; on an empty list it is left alone |
| Store.RuleList.Next | src/library/rules.c:81-88 | the cursor moves one node on (NULL after the tail, NULL stays NULL), and the node it now points at is returned |
| Store.RuleList.Append | src/library/rules.c:466-507 | a NULL buffer or a refused line returns 1, and a blank or comment line returns 0, all with the list unchanged; an accepted line is linked in at the tail with the next number, the cursor on it and the count one up; an unknown account ends the process; the line must Fit the node's slot arrays |
| Store.RuleList.UnsupportAudit | src/library/rules.c:862-880 | every rule loses the audit bit of its decision and nothing else changes |
| Store.RuleList.Clear | src/library/rules.c:883-909 | the list is empty again with a NULL cursor and count 0 |
| Acceptance.LegacyStep | src/library/rules.c:418-430 | one original-syntax field with an accepted subject value or an object name fills its slot and the loop goes on |
| Acceptance.LegacyRun | src/library/rules.c:384-448 | over such fields nv_split's loop reaches finish_up with exactly their subject and their object conditions appended, each side in the order written |
| Acceptance.LegacyLineAccepted | src/library/rules.c:358-461 | a line of a known decision and such fields, with a subject and an object among them, parses to exactly the rule of those conditions, with open access |
| Acceptance.LegacyLineRoundTrip | src/library/rules.c:358-461 | written out with blanks and read back, such a line gives the same rule when no word holds a blank or a `:` |
| Acceptance.LegacyStepFits | src/library/rules.c:418-430 | one such field finds room when its side has a free slot and the rest of the line fits |
| Acceptance.LegacyRunFits | src/library/rules.c:384-448 | such fields find room while the conditions they add on each side fit |
| Acceptance.LegacyLineFits | src/library/rules.c:358-461 | such a line stays within the slot arrays when each side has at most MAX_FIELDS conditions |
| Acceptance.ColonSubjectStep | src/library/rules.c:314-343 | one colon-syntax subject field, either `all` or a subject name with an accepted value, fills the next subject slot and parse_new_format goes on |
| Acceptance.ColonObjectStep | src/library/rules.c:324-343 | one colon-syntax object field, either `all` or an object name, fills the next object slot and parse_new_format goes on |
| Acceptance.ColonSubjectRun | src/library/rules.c:314-323 | over such subject fields parse_new_format appends exactly their conditions, in order, and goes on with what follows |
| Acceptance.ColonObjectRun | src/library/rules.c:324-333 | over object fields parse_new_format appends exactly their conditions, in order, and returns 0 |
| Acceptance.ColonObjectSide | src/library/rules.c:334-335 | from the bare `:` on, parse_new_format fills the object slots and returns 0 |
| Acceptance.ColonFirstField | src/library/rules.c:404-416 | the first named subject field of a colon-syntax line, other than `perm`, fills its slot and hands the rest of the line to parse_new_format |
| Acceptance.NamedLeadIn | src/library/rules.c:404-416 | after such a field, the line ends where parse_new_format ends on what follows the subject fields, with all of their conditions appended; the code parse_new_format returns is dropped |
| Acceptance.ColonLeadIn | src/library/rules.c:404-443 | on a fresh rule, subject fields opening with a named field, or with one `all` that nv_split's own loop puts in the first subject slot, reach parse_new_format with all of their conditions in place |
| Acceptance.ColonLineAccepted | src/library/rules.c:358-461 | a line of a known decision, subject fields opening as above (each `all` or a subject name with an accepted value), a `:` and object fields (each `all` or an object name), at least one on each side, parses to exactly the rule of those conditions, with open access |
| Acceptance.ColonLineRoundTrip | src/library/rules.c:358-461 | written out with blanks and read back, such a line gives the same rule when no word holds a blank |
| Acceptance.PermLeadIn | src/library/rules.c:390-402 | a leading `perm=` field with `execute`, `any` or `open` sets that access (open keeps the default) and hands the rest of the line to parse_new_format |
| Acceptance.ColonPermLineAccepted | src/library/rules.c:358-461 | a line of a known decision, `perm=` with an accepted value, any subject fields (each `all` or a subject name with an accepted value), a `:` and object fields, at least one on each side, parses to exactly the rule of those conditions, with the access `perm=` names |
| Acceptance.ColonPermLineRoundTrip | src/library/rules.c:358-461 | written out with blanks and read back, such a line gives the same rule when no word holds a blank |
| Acceptance.ColonSubjectRunFits | src/library/rules.c:314-323 | subject fields find room while the subject conditions they add fit |
| Acceptance.ColonObjectRunFits | src/library/rules.c:324-333 | object fields find room while the object conditions they add fit |
| Acceptance.NamedLeadInFits | src/library/rules.c:404-416 | the fields of NamedLeadIn find room while the subject slots they fill fit |
| Acceptance.ColonLeadInFits | src/library/rules.c:404-443 | the opening subject fields of ColonLeadIn, a leading `all` included, find room while the subject slots fit |
| Acceptance.ColonLineFits | src/library/rules.c:358-461 | a colon-syntax line accepted by ColonLineAccepted stays within the slot arrays when each side has at most MAX_FIELDS conditions, however many fields it has in all |
| Acceptance.ColonPermLineFits | src/library/rules.c:358-461 | a `perm=`-led line stays within the slot arrays when each side has at most MAX_FIELDS conditions, whatever the `perm=` value (a refused one stops before any slot is written) |
| Matcher.CheckAccess | src/library/rules.c:719-732 | `any` covers every access; `execute` covers exactly execute requests; `open` covers exactly the others |
| Matcher.SubjTrusted | src/library/rules.c:195-202 | is_subj_trusted: the process carries a non-zero trust attribute; a missing one counts as untrusted |
| Matcher.ObjTrusted | src/library/rules.c:208-215 | is_obj_trusted: the file carries a trust attribute of non-zero length; a missing one counts as untrusted |
| Matcher.UnderDirs | src/library/rules.c:524-534 | the reference for check_dirs: some system directory at or after the start index is a prefix of the path |
| Matcher.DirMatch | src/library/rules.c:538-577 | the reference for the two directory tests: `execdirs` and `systemdirs` scan the table, a 10-character `untrusted` asks for an untrusted file, anything else compares the first `len` characters |
| Matcher.CheckDirs | src/library/rules.c:511-534 | true iff some system directory at or after the start index is a prefix of the path |
| Matcher.DirTest | src/library/rules.c:538-577 | the directory test shared by both dir tests computes DirMatch |
| Matcher.ObjDirTest | src/library/rules.c:538-555 | obj_dir_test is DirMatch with the rule's cached length |
| Matcher.SubjDirTest | src/library/rules.c:559-577 | subj_dir_test is DirMatch with the length of the rule value |
| Matcher.DirMatchOfParsed | src/library/rules.c:538-577 | with the true length of the value, a directory test is `execdirs`, `systemdirs` or a prefix test; the `untrusted` branch is unreachable |
| Matcher.SystemDirsAreExecDirsAndEtc | src/library/rules.c:511-519 | `systemdirs` is `execdirs` plus /etc/ |
| Matcher.EtcIsNotAnExecDir | src/library/rules.c:541-543 | a file under /etc/ is in `systemdirs` but not in `execdirs` |
| Matcher.PatternStep | src/library/rules.c:643-715 | the classifier answers 1, 0 or -1, and -1 exactly at FULL with an ELF error; a non-ELF process becomes NOT_ELF with 0; while information is missing (Undecided) it answers 0 and leaves the record alone; every other outcome drops the paths, and outside the error and non-ELF cases it answers 1 exactly when the pattern value names the state it leaves; STATIC_PARTIAL is decided as it stands; the record never stays FULL and keeps its ELF bits; a resolved state is kept and compared |
| Matcher.LdSoScenario | src/library/rules.c:665-668 | a dynamic program first seen through the runtime linker on an execute request becomes ld_so and matches only the ld_so pattern |
| Matcher.StaticScenario | src/library/rules.c:658-662 | an ELF file without a dynamic section, still collecting, becomes static-reopen and matches only the static pattern |
| Matcher.StaticPartialScenario | src/library/rules.c:663-664 | a STATIC_PARTIAL ELF record keeps its state, drops its paths and matches only the static pattern |
| Matcher.FullResolves | src/library/rules.c:675-689 | at FULL without error the state resolves to ld_so if the first path is the runtime linker, otherwise to normal, and the answer is 1 exactly when the pattern value is that state's |
| Matcher.ProcInfo.Clear | src/library/rules.c:653 | clear_proc_info drops the cached paths and keeps the rest of the record |
| Matcher.SubjPatternTest | src/library/rules.c:643-715 | subj_pattern_test moves the record and answers exactly as PatternStep says |
| Matcher.SubjectsFrom | src/library/rules.c:736-785 | a failed subject check has a failing or pattern condition; without a pattern condition the record is unchanged |
| Matcher.SubjHolds | src/library/rules.c:741-781 | the reference for one subject condition: the wildcard and a missing attribute impose nothing, `exe_dir` is a directory test, `exe=untrusted` asks for an untrusted process, other strings compare exactly and numbers by value |
| Matcher.SubjectsWithoutPattern | src/library/rules.c:741-782 | without a pattern condition, the subject check holds iff every condition holds |
| Matcher.PatternErrorPasses | src/library/rules.c:751-759 | when the conditions before a pattern condition hold and the classifier errs, the subject check passes whatever follows |
| Matcher.UntrustedExe | src/library/rules.c:772-775 | `exe=untrusted` holds iff the process is not trusted, a missing trust attribute counting as untrusted |
| Matcher.CheckSubject | src/library/rules.c:736-785 | check_subject's verdict and the record afterwards are those of SubjectsFrom |
| Matcher.CheckObject | src/library/rules.c:789-836 | check_object is true iff every object condition holds |
| Matcher.ObjHolds | src/library/rules.c:795-833 | the reference for one object condition: the wildcard and a missing attribute impose nothing, `dir` is a directory test with the cached length, a path paired with an `untrusted` subject slot asks for an untrusted file, `trust` compares its first character, `ftype=any` always holds, other strings compare exactly |
| Matcher.TrustObject | src/library/rules.c:816-823 | a `trust` condition holds iff its first character is 1 for a trusted file and 0 otherwise |
| Matcher.PathPairedBySlot | src/library/rules.c:810-815 | the `untrusted` path test depends on the subject at the same index: a trusted file fails an equal path when `exe=untrusted` is first, and passes when it is second |
| Matcher.Evaluate | src/library/rules.c:839-859 | the opinion is the rule's decision iff access, subjects and objects all match, otherwise none; a failed access check leaves the record alone, otherwise the record is as the subject check leaves it |
| Matcher.RuleEvaluate | src/library/rules.c:839-859 | rule_evaluate's opinion and the record afterwards are those of Evaluate |

## Left out

- Logging (`msg`) is not modelled; only return codes and state are.
- Allocation failure is not modelled: `strdup`, `malloc` and the code 1 of
  assign_subject and assign_object on an allocation error. The leak when
  nv_split fails after filling slots is not modelled either.
- The DEBUG-only sanity checks (`sanity_check_node`, `sanity_check_list`)
  abort on a broken node. They are not modelled as code; what they check is
  the `Valid()` invariant of `Node` and `RuleList`.
- `strtok` writes NULs into the line buffer. The model takes the tokens as
  values and does not model the buffer.
- Parser.ParseTokens takes the token list and the colon flag as parameters.
  Parser.Parse ties them to one line through CString.Tokens.
- Parser.ParseTokens: the all-inputs acceptance lemmas cover lines whose
  fields are all known and accepted, in the shapes they name. Some lines
  are stated only one token at a time (ParseFacts.AllField,
  ParseFacts.ColonRefusedValueDropped, ParseFacts.LegacyRefusedValueDropped)
  and through example lines:
  - original-syntax lines holding `all`, whose side depends on how many
    subjects and objects are already filled;
  - colon-syntax lines whose subject fields open otherwise than with
    `perm=`, a named field, or one `all` before a named field;
  - lines whose refused values are dropped.
- Parser.Parse and Parser.Node.NvSplit take the line as a string. A C
  string holds no NUL before its end, but the model does not require
  `'\0' !in buf`; it treats a NUL as an ordinary character.
- The width of the slot's `val` field is not modelled: a parsed number is
  kept as an unbounded integer not above LONG_MAX, and account ids as the
  account table gives them.
- Parser.Node.NvSplit and Store.RuleList.Append require that the line Fit
  the node: every `assign_subject` and `assign_object` call the line leads
  to must find a free slot on its own side. The C code does not check this;
  a line that does not fit writes past the end of a slot array, which is
  undefined behaviour and is not modelled.
- A slot for a numeric kind other than uid and auid whose text does not
  start with a digit keeps an uninitialised value in C. The model records
  it as `Unset`. The matcher requires well-formed subjects
  (WellFormedSubjects), so it never compares such a slot.
- Matcher.SubjPatternTest and the methods that call it require a first
  path once the record is FULL, because the code reads it without a NULL
  check.
- Matcher.CheckObject: the rule keeps only the filled subject slots, so
  the `untrusted` path pairing is applied only to indices below the
  subject count. In C, rules_append marks every slot `UNUSED`
  (rules.c:476-479), but assign_subject writes the type before the value
  check (rules.c:224). A refused value therefore leaves its type in the
  slot at the subject count. Only `pattern` and the numeric kinds are ever
  refused, never `exe` or `exe_dir`, so that slot never passes the
  `untrusted` test. Pairing only below the subject count gives the same
  verdict.
- The `proc_info` state enumeration is defined outside rules.c. States it
  does not name are `Other(id, beforeFull)`, which keeps only their order
  relative to STATE_FULL.
- The ELF bits other than IS_ELF, HAS_DYNAMIC and HAS_ERROR are folded into
  one flag.
- The name tables (`dec_name_to_val`, `subj_name_to_val`, `obj_name_to_val`)
  and the account database (`getpwnam`) are parameters of type `Tables`.
  `exit(1)` is the status `Exited(1)`.
- MAX_FIELDS and SYSTEM_LD_SO are defined outside rules.c and are left as
  unspecified constants.
- `get_subj_attr` and `get_obj_attr` are maps in the event.
- The `lineno` argument only feeds log messages and is unused.
- `rules_unsupport_audit` is modelled for builds with USE_AUDIT. Without it
  the function does nothing.
- `rules_clear` frees every string and node. Memory is not modelled, so only
  the emptied list is.
- `clear_proc_info` is modelled only as dropping the two cached paths.
