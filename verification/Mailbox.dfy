/** The mail server as mailshear sees it: messages at positions, a position
    being a folder and a UID in it. A message that arrives in a folder, by
    delivery, COPY or MOVE, gets a UID at or above the folder's UIDNEXT
    (section 2.3.1.1 of RFC 9051). */
module Mailbox {

  /** A mailbox name. Names are told apart by number here; what mailshear reads
      in a name beyond that, its lower-cased text, is a function of it that the
      code using it is given. NOWHERE is the empty name. */
  newtype Folder = n: int | 0 <= n

  const NOWHERE: Folder := 0

  datatype Mail = Mail(id: string, subject: string, flags: seq<string>)

  datatype Loc = Loc(folder: Folder, uid: nat)

  datatype Server = Server(
    mail: map<Loc, Mail>,
    next: map<Folder, nat>,      // UIDNEXT; its keys are the folders there are
    validity: map<Folder, nat>)  // UIDVALIDITY

  const DELETED := "\\Deleted"

  ghost predicate ServerOk(s: Server) {
    && s.next.Keys == s.validity.Keys
    && NOWHERE !in s.next
    && (forall f <- s.next :: 0 < s.next[f])
    && forall l <- s.mail :: l.folder in s.next && 0 < l.uid < s.next[l.folder]
  }

  /** Message m arrives at l, which is at or above the folder's UIDNEXT. */
  function Arrive(s: Server, l: Loc, m: Mail): Server {
    s.(mail := s.mail[l := m], next := s.next[l.folder := l.uid + 1])
  }

  function Drop(s: Server, l: Loc): Server {
    s.(mail := s.mail - {l})
  }

  function FlagDeleted(m: Mail): Mail {
    if DELETED in m.flags then m else m.(flags := m.flags + [DELETED])
  }

  function LocsOf(folder: Folder, uids: seq<nat>): set<Loc> {
    set u | u in uids :: Loc(folder, u)
  }

  /** Where folder f holds a message with the Message-ID id. */
  ghost function Copies(s: Server, f: Folder, id: string): set<Loc> {
    set l | l in s.mail && l.folder == f && s.mail[l].id == id
  }

  /** Where folder f holds exactly the message m, flags included. */
  ghost function Instances(s: Server, f: Folder, m: Mail): set<Loc> {
    set l | l in s.mail && l.folder == f && s.mail[l] == m
  }

  /** Folder f holds the same messages in s and t, each as many times, under whatever UIDs. */
  ghost predicate SameMail(s: Server, t: Server, f: Folder) {
    forall m: Mail :: |Instances(s, f, m)| == |Instances(t, f, m)|
  }
}
