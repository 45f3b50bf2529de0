/** The per-message safety rules of a delete (internal/apply/phases.go), the
    reasons they give, and what passing them means. */
module Rules {
  import opened Mailbox
  import opened Store
  import opened Imapx

  /** The settings the rules read. lower is a mailbox name's lower-cased text;
      keepHit and keepCategory are the transactional phrase list. */
  datatype Config = Config(
    account: string, username: string, trash: Folder, lower: Folder -> string,
    keepOn: bool, keepHit: string -> bool, keepCategory: string -> string)

  const NEVER_SOURCE: set<string> :=
    {"trash", "spam", "junk", "drafts", "sent",
     "[gmail]/trash", "[gmail]/spam", "[gmail]/drafts", "[gmail]/sent mail"}

  /** The well-known names, one by one. */
  predicate WellKnown(name: string) {
    || name == "trash" || name == "spam" || name == "junk" || name == "drafts" || name == "sent"
    || name == "[gmail]/trash" || name == "[gmail]/spam" || name == "[gmail]/drafts" || name == "[gmail]/sent mail"
  }

  lemma NeverSourceMeaning(name: string)
    ensures name in NEVER_SOURCE <==> WellKnown(name)
  {
  }

  const REASON_FLAGGED := "flagged"
  const REASON_ANSWERED := "answered"
  const REASON_FLAGS_UNAVAILABLE := "flags unavailable"
  const REASON_GONE := "gone"
  const REASON_NO_MESSAGE_ID := "no stored message-id"
  const REASON_IDENTITY := "identity mismatch"
  const REASON_KEPT := "kept"

  function LowerChar(c: char): char {
    if 'A' <= c <= 'Z' then (c as int + 32) as char else c
  }

  function Lower(s: string): string {
    seq(|s|, i requires 0 <= i < |s| => LowerChar(s[i]))
  }

  predicate OtherCase(a: char, b: char) {
    || ('A' <= a <= 'Z' && b as int == a as int + 32)
    || ('A' <= b <= 'Z' && a as int == b as int + 32)
  }

  /** The same text but for the case of its letters. */
  ghost predicate SameText(a: string, b: string) {
    |a| == |b| && forall i :: 0 <= i < |a| ==> a[i] == b[i] || OtherCase(a[i], b[i])
  }

  lemma LowerMeaning(a: string, b: string)
    ensures Lower(a) == Lower(b) <==> SameText(a, b)
  {
    if Lower(a) == Lower(b) {
      assert |Lower(a)| == |a| && |Lower(b)| == |b|;
      forall i | 0 <= i < |a| ensures a[i] == b[i] || OtherCase(a[i], b[i]) {
        assert Lower(a)[i] == Lower(b)[i];
      }
    }
  }

  datatype Verdict = Eligible | Refused(reason: string)

  function KeptReason(category: string): string {
    if category == "" then REASON_KEPT else REASON_KEPT + ": " + category
  }

  /** The first flag that protects a message, if any. */
  function FlagVerdict(flags: seq<string>): Verdict {
    if flags == [] then Eligible
    else if Lower(flags[0]) == "\\flagged" then Refused(REASON_FLAGGED)
    else if Lower(flags[0]) == "\\answered" then Refused(REASON_ANSWERED)
    else FlagVerdict(flags[1..])
  }

  predicate Protects(flag: string) {
    Lower(flag) == "\\flagged" || Lower(flag) == "\\answered"
  }

  /** The two flags, whatever the case the server writes them in. */
  lemma ProtectsMeaning(flag: string)
    ensures Protects(flag) <==> SameText(flag, "\\Flagged") || SameText(flag, "\\Answered")
  {
    assert Lower("\\Flagged") == "\\flagged" && Lower("\\Answered") == "\\answered";
    LowerMeaning(flag, "\\Flagged");
    LowerMeaning(flag, "\\Answered");
  }

  ghost predicate Marked(flags: seq<string>) {
    exists f :: f in flags && Protects(f)
  }

  /** Flagged or answered, in any case and at any place in the list. */
  lemma {:induction false} FlagVerdictMeaning(flags: seq<string>)
    ensures FlagVerdict(flags).Eligible? <==> !Marked(flags)
  {
    if flags != [] {
      FlagVerdictMeaning(flags[1..]);
      assert forall f :: f in flags <==> f == flags[0] || f in flags[1..];
      if Protects(flags[0]) { assert flags[0] in flags; }
    }
  }

  /** The reason is the first such flag's. */
  lemma {:induction false} FlagReason(flags: seq<string>, i: nat)
    requires i < |flags| && Protects(flags[i]) && forall j :: 0 <= j < i ==> !Protects(flags[j])
    ensures FlagVerdict(flags) == Refused(if SameText(flags[i], "\\Flagged") then "flagged" else "answered")
  {
    if i == 0 {
      ProtectsMeaning(flags[0]);
      LowerMeaning(flags[0], "\\Flagged");
      assert Lower("\\Flagged") == "\\flagged";
    } else {
      assert !Protects(flags[0]);
      FlagReason(flags[1..], i - 1);
    }
  }

  /** ineligible: why the message at a UID must not be moved, if anything.
      flags and ids are what the server answered; a UID missing from either is
      unknown, not clean. */
  function Ineligible(c: Config, m: Row, flags: map<nat, seq<string>>, ids: map<nat, Identity>,
                      uid: nat, waived: bool): Verdict {
    if FlagVerdict(m.flags).Refused? then FlagVerdict(m.flags)
    else if uid !in flags then Refused(REASON_FLAGS_UNAVAILABLE)
    else if FlagVerdict(flags[uid]).Refused? then FlagVerdict(flags[uid])
    else if uid !in ids then Refused(REASON_GONE)
    else if m.id == "" then Refused(REASON_NO_MESSAGE_ID)
    else if ids[uid].id != m.id then Refused(REASON_IDENTITY)
    else if c.keepOn && !waived && c.keepHit(ids[uid].subject) then
      Refused(KeptReason(c.keepCategory(ids[uid].subject)))
    else if c.keepOn && !waived && m.keep != "" then Refused(KeptReason(m.keep))
    else Eligible
  }

  /** What must be true of a message for it to be moved: it is the one that was
      scanned, neither flagged nor answered then or now, and not transactional
      by its subject now or its category then unless that rule is waived. */
  ghost predicate Cleared(c: Config, s: Server, m: Row, waived: bool) {
    && m.at in s.mail
    && m.id != "" && s.mail[m.at].id == m.id
    && !Marked(m.flags) && !Marked(s.mail[m.at].flags)
    && (c.keepOn && !waived ==> !c.keepHit(s.mail[m.at].subject) && m.keep == "")
  }

  /** Given truthful answers the rules pass exactly the cleared messages the
      server answered for. */
  lemma EligibleIsCleared(c: Config, s: Server, m: Row, flags: map<nat, seq<string>>, ids: map<nat, Identity>, waived: bool)
    requires m.at.uid in flags ==> m.at in s.mail && flags[m.at.uid] == s.mail[m.at].flags
    requires m.at.uid in ids ==>
               (m.at in s.mail && ids[m.at.uid] == Identity(s.mail[m.at].id, s.mail[m.at].subject))
    ensures Ineligible(c, m, flags, ids, m.at.uid, waived).Eligible? <==>
            m.at.uid in flags && m.at.uid in ids && Cleared(c, s, m, waived)
  {
    FlagVerdictMeaning(m.flags);
    if m.at.uid in flags { FlagVerdictMeaning(flags[m.at.uid]); }
  }

  ghost predicate ByFlag(flags: seq<string>, reason: string) {
    exists f <- flags :: (SameText(f, "\\Flagged") && reason == "flagged") || (SameText(f, "\\Answered") && reason == "answered")
  }

  lemma {:induction false} FlagReasonFrom(flags: seq<string>)
    requires FlagVerdict(flags).Refused?
    ensures ByFlag(flags, FlagVerdict(flags).reason)
  {
    if Protects(flags[0]) {
      FlagReason(flags, 0);
      ProtectsMeaning(flags[0]);
      assert flags[0] in flags;
    } else {
      FlagReasonFrom(flags[1..]);
    }
  }

  /** What each reason says of a message that is refused. */
  ghost predicate RefusedFor(c: Config, m: Row, flags: map<nat, seq<string>>, ids: map<nat, Identity>, uid: nat,
                             waived: bool, reason: string)
  {
    || ByFlag(m.flags, reason)
    || (reason == "flags unavailable" && uid !in flags)
    || (uid in flags && ByFlag(flags[uid], reason))
    || (reason == "gone" && uid !in ids)
    || (reason == "no stored message-id" && m.id == "")
    || (reason == "identity mismatch" && m.id != "" && uid in ids && ids[uid].id != m.id)
    || (c.keepOn && !waived && uid in ids && KeptFor(c, m, ids[uid].subject, reason))
  }

  /** The live subject decides, and what the scan recorded if it does not. */
  ghost predicate KeptFor(c: Config, m: Row, subject: string, reason: string) {
    var category := if c.keepHit(subject) then c.keepCategory(subject) else m.keep;
    && (c.keepHit(subject) || m.keep != "")
    && reason == if category == "" then "kept" else "kept: " + category
  }

  lemma ReasonIsTrue(c: Config, m: Row, flags: map<nat, seq<string>>, ids: map<nat, Identity>, uid: nat, waived: bool)
    requires Ineligible(c, m, flags, ids, uid, waived).Refused?
    ensures RefusedFor(c, m, flags, ids, uid, waived, Ineligible(c, m, flags, ids, uid, waived).reason)
  {
    hide FlagVerdict;
    if FlagVerdict(m.flags).Refused? {
      FlagReasonFrom(m.flags);
    } else if uid in flags && FlagVerdict(flags[uid]).Refused? {
      FlagReasonFrom(flags[uid]);
    }
  }
}
