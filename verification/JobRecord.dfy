/** The job record of jarvis_job.cpp: its fields, the JSON text save_state writes, and its size limit. */
module JobRecord {
  import opened Text

  const MAX_BYTES: nat := 256 * 1024
  const MAX_STATE: nat := 8 * 1024 * 1024

  /** A C++ int. */
  type Int32 = x: int | -0x8000_0000 <= x < 0x8000_0000

  /** The status strings the job writes; Foreign is any other text found in the file. */
  datatype Status = Denied | Proposed | Applied | Verified | RolledBack | Cancelled | Failed | Foreign(name: string)

  datatype JobState = JobState(
    id: string, status: Status, fileName: string, verifierName: string,
    oldText: string, newText: string, beforeHash: string, afterHash: string,
    original: string, patched: string, writes: nat, verifierExit: Int32,
    authorized: bool, lessonTrust: string, lesson: string)

  function StatusName(s: Status): string {
    match s
    case Denied => "denied"
    case Proposed => "proposed"
    case Applied => "applied"
    case Verified => "verified"
    case RolledBack => "rolled_back"
    case Cancelled => "cancelled"
    case Failed => "failed"
    case Foreign(name) => name
  }

  predicate Terminal(s: Status) {
    s in {Denied, Cancelled, Verified, RolledBack, Failed}
  }

  const HEX := "0123456789abcdef"

  /** How the JSON library writes one byte of a string (ASCII escaping off). */
  function EscapeByte(c: char): (r: string)
    ensures 1 <= |r| <= 6
  {
    if c == '\"' then "\\\""
    else if c == '\\' then "\\\\"
    else if c == 8 as char then "\\b"
    else if c == '\t' then "\\t"
    else if c == '\n' then "\\n"
    else if c == 12 as char then "\\f"
    else if c == '\r' then "\\r"
    else if c < ' ' then "\\u00" + [HEX[c as int / 16], HEX[c as int % 16]]
    else [c]
  }

  function Escape(s: string): string {
    if s == "" then "" else EscapeByte(s[0]) + Escape(s[1..])
  }

  lemma {:induction false} EscapeGrowsSixfold(s: string)
    ensures |s| <= |Escape(s)| <= 6 * |s|
  {
    if s != "" {
      EscapeGrowsSixfold(s[1..]);
    }
  }

  function Digits(n: nat): string {
    if n < 10 then [HEX[n]] else Digits(n / 10) + [HEX[n % 10]]
  }

  function Number(n: int): string {
    if n < 0 then "-" + Digits(-n) else Digits(n)
  }

  function Power10(k: nat): nat {
    if k == 0 then 1 else 10 * Power10(k - 1)
  }

  lemma {:induction false} DigitsBound(n: nat, k: nat)
    requires 1 <= k && n < Power10(k)
    ensures |Digits(n)| <= k
  {
    if n >= 10 {
      DigitsBound(n / 10, k - 1);
    }
  }

  lemma NumberBound(n: int)
    requires -0x8000_0000 <= n < 0x8000_0000
    ensures |Number(n)| <= 11
  {
    assert Power10(10) == 10_000_000_000 by {
      assert Power10(2) == 100;
      assert Power10(4) == 10_000;
      assert Power10(6) == 1_000_000;
      assert Power10(8) == 100_000_000;
    }
    DigitsBound(if n < 0 then -n else n, 10);
  }

  function Quoted(s: string): string { "\"" + Escape(s) + "\"" }

  function Field(key: string, value: string): string { "\"" + key + "\":" + value }

  // The object as the library prints it, keys in order and no spaces, in three runs of fields.
  function Front(st: JobState): seq<string> {
    [ "{" + Field("after_hash", Quoted(st.afterHash)),
      "," + Field("authorized", if st.authorized then "true" else "false"),
      "," + Field("before_hash", Quoted(st.beforeHash)),
      "," + Field("file_name", Quoted(st.fileName)),
      "," + Field("id", Quoted(st.id)),
      "," + Field("lesson", Quoted(st.lesson)),
      "," + Field("lesson_trust", Quoted(st.lessonTrust)) ]
  }

  function Texts(st: JobState): seq<string> {
    [ "," + Field("new_text", Quoted(st.newText)),
      "," + Field("old_text", Quoted(st.oldText)),
      "," + Field("original", Quoted(st.original)),
      "," + Field("patched", Quoted(st.patched)) ]
  }

  function Back(st: JobState): seq<string> {
    [ "," + Field("status", Quoted(StatusName(st.status))),
      "," + Field("verifier_exit", Number(st.verifierExit)),
      "," + Field("verifier_name", Quoted(st.verifierName)),
      "," + Field("writes", Number(st.writes)) + "}" ]
  }

  function Dump(st: JobState): string { Join(Front(st) + Texts(st) + Back(st)) }

  /** The bounds a job has once `run` reaches `proposed`, kept by every later state. */
  ghost predicate Sized(st: JobState) {
    && |st.id| <= 12 && |st.fileName| <= 64 && |st.verifierName| <= 64
    && |st.beforeHash| <= 64 && |st.afterHash| <= 64
    && |st.oldText| <= MAX_BYTES && |st.newText| <= MAX_BYTES
    && |st.original| <= MAX_BYTES && |st.patched| <= MAX_BYTES
    && !st.status.Foreign? && st.writes <= 1
    && |st.lessonTrust| <= 9 && |st.lesson| <= 300
  }

  /** The same, but for a patch that may be over-long, as in the record of a run that fails for it. */
  ghost predicate Printable(st: JobState) { Sized(st.(patched := "")) && |st.patched| <= 2 * MAX_BYTES }

  lemma {:induction false} JoinBound(parts: seq<string>, each: nat)
    requires forall i :: 0 <= i < |parts| ==> |parts[i]| <= each
    ensures |Join(parts)| <= each * |parts|
  {
    if parts != [] {
      JoinBound(parts[1..], each);
    }
  }

  lemma QuotedBound(s: string, n: nat)
    requires |s| <= n
    ensures |Quoted(s)| <= 6 * n + 2
  {
    EscapeGrowsSixfold(s);
  }

  lemma FrontBound(st: JobState)
    requires Printable(st)
    ensures |Join(Front(st))| <= 7 * 2000
  {
    QuotedBound(st.afterHash, 64);
    QuotedBound(st.beforeHash, 64);
    QuotedBound(st.fileName, 64);
    QuotedBound(st.id, 12);
    QuotedBound(st.lesson, 300);
    QuotedBound(st.lessonTrust, 9);
    JoinBound(Front(st), 2000);
  }

  lemma TextsBound(st: JobState)
    requires Printable(st)
    ensures |Join(Texts(st))| <= 5 * (6 * MAX_BYTES) + 80
  {
    QuotedBound(st.newText, MAX_BYTES);
    QuotedBound(st.oldText, MAX_BYTES);
    QuotedBound(st.original, MAX_BYTES);
    QuotedBound(st.patched, 2 * MAX_BYTES);
    var front := Texts(st)[..3];
    assert Texts(st) == front + [Texts(st)[3]];
    JoinBound(front, 6 * MAX_BYTES + 20);
    JoinAppend(front, [Texts(st)[3]]);
    JoinBound([Texts(st)[3]], 12 * MAX_BYTES + 20);
  }

  lemma BackBound(st: JobState)
    requires Printable(st)
    ensures |Join(Back(st))| <= 4 * 2000
  {
    QuotedBound(StatusName(st.status), 11);
    QuotedBound(st.verifierName, 64);
    NumberBound(st.verifierExit);
    NumberBound(st.writes);
    JoinBound(Back(st), 2000);
  }

  /** Four texts of 256 KiB, one of them twice as long, sixfold, and the small fields stay under 8 MiB. */
  lemma SizedFits(st: JobState)
    requires Sized(st) || Printable(st)
    ensures |Dump(st)| <= MAX_STATE
  {
    FrontBound(st);
    TextsBound(st);
    BackBound(st);
    JoinAppend(Front(st), Texts(st));
    JoinAppend(Front(st) + Texts(st), Back(st));
  }

  /** set_lesson: the note a closed job leaves behind. */
  function WithLesson(st: JobState): JobState {
    st.(lessonTrust := "candidate",
        lesson := "candidate " + st.id + " before=" + st.beforeHash + " after=" + st.afterHash
                  + " verifier=" + Number(st.verifierExit) + " status=" + StatusName(st.status))
  }

  /** The note is the only change, and a small one. */
  lemma LessonStaysSized(st: JobState)
    ensures WithLesson(st).(lessonTrust := st.lessonTrust, lesson := st.lesson) == st
    ensures Sized(st) ==> Sized(WithLesson(st))
  {
    NumberBound(st.verifierExit);
  }
}
