/** What the commands of a move do to a server, and what no prefix of them
    can do: lose a message. */
module Moves {
  import opened Mailbox
  import opened Audit
  import opened Events

  /** The message at l in w0 has a copy of its own in dst: one that arrived
      since w0, from l and from nowhere else. */
  ghost predicate HasCopy(w0: World, w: World, dst: Folder, l: Loc) {
    && l in w.went && w.went[l].folder == dst
    && w.went[l] in w.came && w.came[w.went[l]] == l
    && w.went[l] !in w0.server.mail && w.went[l] in w.server.mail
    && l in w0.server.mail && w.server.mail[w.went[l]] == w0.server.mail[l]
  }

  /** The message at l is where it was and as it was. */
  ghost predicate Untouched(w0: World, w: World, l: Loc) {
    l in w0.server.mail && l in w.server.mail && w.server.mail[l] == w0.server.mail[l]
  }

  /** The message at l is not lost: it is where it was, and as it was unless
      it was asked for and is now marked \Deleted; or it was asked for and has
      its own copy in dst. */
  ghost predicate Safe(w0: World, w: World, dst: Folder, asked: set<Loc>, l: Loc) {
    || Untouched(w0, w, l)
    || (l in asked && l in w0.server.mail && l in w.server.mail &&
         w.server.mail[l] == FlagDeleted(w0.server.mail[l]))
    || (l in asked && HasCopy(w0, w, dst, l))
  }

  /** No message of w0 is lost. */
  ghost predicate Kept(w0: World, w: World, dst: Folder, asked: set<Loc>) {
    forall l <- w0.server.mail :: Safe(w0, w, dst, asked, l)
  }

  /** UIDNEXT of dst has not gone back. */
  ghost predicate Later(w0: World, w: World, dst: Folder) {
    WorldOk(w0) && WorldOk(w) && (dst in w.server.next ==> dst in w0.server.next && w0.server.next[dst] <= w.server.next[dst])
  }

  /** What is known of one message between the commands of a move: fresh is
      that nothing has touched it, copied that its copy is in dst. */
  ghost predicate Track(w0: World, w: World, dst: Folder, asked: set<Loc>, l: Loc, pristine: bool, copied: bool) {
    && Later(w0, w, dst)
    && Safe(w0, w, dst, asked, l)
    && (pristine ==> Untouched(w0, w, l))
    && (copied ==> HasCopy(w0, w, dst, l))
  }

  lemma OthersTracked(w0: World, w: World, kind: Kind, src: Folder, dst: Folder, asked: set<Loc>,
                      l: Loc, pristine: bool, copied: bool, e: Event)
    requires Track(w0, w, dst, asked, l, pristine, copied) && src != dst
    requires Legal(w.server, e) && OfKind(e, kind, src, dst) && e.at != l
    ensures Track(w0, Step(w, e), dst, asked, l, pristine, copied)
  {
    StepOk(w, e);
  }

  lemma TrackStep(w0: World, w: World, kind: Kind, src: Folder, dst: Folder, asked: set<Loc>,
                  l: Loc, pristine: bool, copied: bool, e: Event)
    requires Track(w0, w, dst, asked, l, pristine, copied) && src != dst
    requires Legal(w.server, e) && OfKind(e, kind, src, dst)
    requires e.at == l ==> l in asked && (kind.Moving? || kind.Copying? ==> pristine) && (kind.Expunging? ==> copied)
    ensures var arrives := e.at == l && (kind.Moving? || kind.Copying?);
      Track(w0, Step(w, e), dst, asked, l, pristine && (e.at != l || kind.Copying?), copied || arrives)
  {
    if e.at != l {
      OthersTracked(w0, w, kind, src, dst, asked, l, pristine, copied, e);
    } else {
      StepOk(w, e);
    }
  }

  /** No beginning of one command's events loses the message at l. */
  lemma {:induction false} KeptRun(w0: World, w: World, es: History, kind: Kind, src: Folder, dst: Folder,
                                   asked: set<Loc>, l: Loc, pristine: bool, copied: bool)
    requires Track(w0, w, dst, asked, l, pristine, copied) && src != dst
    requires LegalRun(w, es) && IsCommand(es, kind, src, dst)
    requires l in Acted(es) ==>
               l in asked && (kind.Moving? || kind.Copying? ==> pristine) && (kind.Expunging? ==> copied)
    ensures forall p :: Begins(p, es) ==> Safe(w0, Replay(w, p), dst, asked, l)
    ensures var arrives := l in Acted(es) && (kind.Moving? || kind.Copying?);
      Track(w0, Replay(w, es), dst, asked, l, pristine && (l !in Acted(es) || kind.Copying?), copied || arrives)
  {
    if es.Then? {
      KeptRun(w0, w, es.past, kind, src, dst, asked, l, pristine, copied);
      var here := l in Acted(es.past) && (kind.Moving? || kind.Copying?);
      var clean := pristine && (l !in Acted(es.past) || kind.Copying?);
      TrackStep(w0, Replay(w, es.past), kind, src, dst, asked, l, clean, copied || here, es.e);
    }
  }

  /** No beginning of es, from w on, loses a message of w0. */
  ghost predicate KeptThrough(w0: World, w: World, es: History, dst: Folder, asked: set<Loc>) {
    forall p :: Begins(p, es) ==> Kept(w0, Replay(w, p), dst, asked)
  }

  lemma KeptThroughAppend(w0: World, w: World, a: History, b: History, dst: Folder, asked: set<Loc>)
    requires KeptThrough(w0, w, a, dst, asked) && KeptThrough(w0, Replay(w, a), b, dst, asked)
    ensures KeptThrough(w0, w, Append(a, b), dst, asked)
  {
    forall p | Begins(p, Append(a, b)) ensures Kept(w0, Replay(w, p), dst, asked) {
      if !Begins(p, a) {
        var q := BeginsAppend(p, a, b);
        AppendReplay(w, a, q);
      }
    }
  }

  /** What is known of every message of w0. */
  ghost predicate AllTracked(w0: World, w: World, dst: Folder, asked: set<Loc>, touched: set<Loc>, copied: set<Loc>) {
    Later(w0, w, dst) &&
    forall l <- w0.server.mail :: Track(w0, w, dst, asked, l, l !in touched, l in copied)
  }

  /** One whole command, on messages it is right to run it on. */
  lemma CommandKeeps(w0: World, w: World, es: History, kind: Kind, src: Folder, dst: Folder,
                     asked: set<Loc>, touched: set<Loc>, copied: set<Loc>)
    requires AllTracked(w0, w, dst, asked, touched, copied) && src != dst
    requires LegalRun(w, es) && IsCommand(es, kind, src, dst) && Acted(es) <= asked
    requires kind.Moving? || kind.Copying? ==> Acted(es) !! touched
    requires kind.Expunging? ==> Acted(es) <= copied
    ensures KeptThrough(w0, w, es, dst, asked)
    ensures var touched' := if kind.Copying? then touched else touched + Acted(es);
            var copied' := if kind.Moving? || kind.Copying? then copied + Acted(es) else copied;
            AllTracked(w0, Replay(w, es), dst, asked, touched', copied')
  {
    LaterRun(w0, w, es, kind, src, dst);
    forall l | l in w0.server.mail
      ensures forall p :: Begins(p, es) ==> Safe(w0, Replay(w, p), dst, asked, l)
      ensures Track(w0, Replay(w, es), dst, asked, l, l !in touched && (l !in Acted(es) || kind.Copying?),
                    l in copied || (l in Acted(es) && (kind.Moving? || kind.Copying?)))
    {
      KeptRun(w0, w, es, kind, src, dst, asked, l, l !in touched, l in copied);
    }
  }

  lemma LaterRun(w0: World, w: World, es: History, kind: Kind, src: Folder, dst: Folder)
    requires Later(w0, w, dst) && LegalRun(w, es) && IsCommand(es, kind, src, dst)
    ensures Later(w0, Replay(w, es), dst)
  {
    if es.Then? { StepOk(Replay(w, es.past), es.e); }
  }

  /** A command that copies or moves adds nothing outside dst, and removes
      nothing but what it moves. */
  lemma {:induction false} OutsideDst(w: World, es: History, kind: Kind, src: Folder, dst: Folder)
    requires WorldOk(w) && LegalRun(w, es) && IsCommand(es, kind, src, dst) && src != dst
    requires kind.Moving? || kind.Copying?
    ensures var t := Replay(w, es);
      WorldOk(t) && forall l: Loc :: l.folder != dst ==>
        (l in t.server.mail <==> l in w.server.mail && (kind.Moving? ==> l !in Acted(es))) &&
        (l in t.server.mail ==> t.server.mail[l] == w.server.mail[l])
  {
    if es.Then? {
      OutsideDst(w, es.past, kind, src, dst);
      StepOk(Replay(w, es.past), es.e);
    }
  }

  /** The server after one command, in closed form. */
  ghost predicate ResultOf(s: Server, t: Server, locs: set<Loc>, kind: Kind) {
    && (kind.Flagging? ==>
          && t.next == s.next && t.mail.Keys == s.mail.Keys
          && forall l <- s.mail :: t.mail[l] == if l in locs then FlagDeleted(s.mail[l]) else s.mail[l])
    && (kind.Expunging? ==> t == s.(mail := s.mail - locs))
  }

  lemma {:induction false} CommandResult(w: World, es: History, kind: Kind, src: Folder, dst: Folder)
    requires WorldOk(w) && LegalRun(w, es) && IsCommand(es, kind, src, dst)
    ensures var t := Replay(w, es);
      && WorldOk(t) && t.server.validity == w.server.validity && ResultOf(w.server, t.server, Acted(es), kind)
      && (kind.Flagging? || kind.Expunging? ==> t.came == w.came)
  {
    if es.Then? {
      CommandResult(w, es.past, kind, src, dst);
      StepOk(Replay(w, es.past), es.e);
    }
  }

  /** The moves that copying messages and then expunging the originals stands for. */
  ghost function AsMoves(h: History): History {
    match h
    case Start => Start
    case Then(past, e) => if e.Copied? then Then(AsMoves(past), Moved(e.at, e.to)) else AsMoves(past)
  }

  /** m is c without the messages gone, which c still has. */
  ghost predicate Lacks(c: World, m: World, gone: set<Loc>) {
    m == c.(server := c.server.(mail := c.server.mail - gone)) && gone <= c.server.mail.Keys
  }

  lemma {:induction false} CopiesAsMoves(w: World, es: History, src: Folder, dst: Folder)
    requires WorldOk(w) && LegalRun(w, es) && IsCommand(es, Copying, src, dst)
    ensures IsCommand(AsMoves(es), Moving, src, dst) && Acted(AsMoves(es)) == Acted(es)
    ensures LegalRun(w, AsMoves(es)) && WorldOk(Replay(w, es))
    ensures Lacks(Replay(w, es), Replay(w, AsMoves(es)), Acted(es))
  {
    if es.Then? {
      CopiesAsMoves(w, es.past, src, dst);
      StepOk(Replay(w, es.past), es.e);
      OneCopyAsMove(Replay(w, es.past), Replay(w, AsMoves(es.past)), Acted(es.past), es.e);
    } else {
      assert w.server.mail - {} == w.server.mail;
    }
  }

  lemma OneCopyAsMove(c: World, m: World, gone: set<Loc>, e: Event)
    requires WorldOk(c) && e.Copied? && Legal(c.server, e) && e.at !in gone
    requires Lacks(c, m, gone)
    ensures Legal(m.server, Moved(e.at, e.to))
    ensures Lacks(Step(c, e), Step(m, Moved(e.at, e.to)), gone + {e.at})
  {
    var c', m' := Step(c, e), Step(m, Moved(e.at, e.to));
    assert m'.server.mail == c'.server.mail - (gone + {e.at});
  }

  lemma FlagThenExpunge(s1: Server, s2: Server, s3: Server, locs: set<Loc>)
    requires ResultOf(s1, s2, locs, Flagging) && ResultOf(s2, s3, locs, Expunging)
    requires s2.validity == s1.validity
    ensures s3 == s1.(mail := s1.mail - locs)
  {
    assert s3.mail == s1.mail - locs;
  }

  /** COPY, STORE \Deleted and UID EXPUNGE of the same messages, all complete,
      leave the server exactly as a UID MOVE of them would. */
  lemma FallbackIsMove(w: World, cs: History, fs: History, xs: History, src: Folder, dst: Folder)
    requires WorldOk(w)
    requires LegalRun(w, cs) && IsCommand(cs, Copying, src, dst)
    requires LegalRun(Replay(w, cs), fs) && IsCommand(fs, Flagging, src, dst) && Acted(fs) == Acted(cs)
    requires LegalRun(Replay(Replay(w, cs), fs), xs) && IsCommand(xs, Expunging, src, dst) && Acted(xs) == Acted(cs)
    ensures LegalRun(w, AsMoves(cs)) && IsCommand(AsMoves(cs), Moving, src, dst) && Acted(AsMoves(cs)) == Acted(cs)
    ensures var t, m := Replay(Replay(Replay(w, cs), fs), xs), Replay(w, AsMoves(cs));
      t.server == m.server && t.came == m.came
  {
    CopiesAsMoves(w, cs, src, dst);
    var w1 := Replay(w, cs);
    CommandResult(w1, fs, Flagging, src, dst);
    var w2 := Replay(w1, fs);
    CommandResult(w2, xs, Expunging, src, dst);
    FlagThenExpunge(w1.server, w2.server, Replay(w2, xs).server, Acted(cs));
  }
}
