/** The messages that travel between clients and brokers. */
module Messages {

  newtype byte = x: int | 0 <= x < 256
  type Bytes = seq<byte>

  datatype Option<+T> = None | Some(value: T)

  /** The wire texts that stand for something other than themselves. */
  predicate Reserved(text: string)
  {
    text in ["__CONNECT__", "__DISCONNECT__", "__RESET__", "__HEARTBEAT__", "__HEARTBEAT_ACK__",
             "__SUBSCRIBE__", "__UNSUBSCRIBE__"]
  }

  type PlainText = text: string | !Reserved(text) witness ""

  /** The reserved handler keys, and every other key by its text.  The program
      only ever compares keys for equality, so a key is modelled by what it
      compares equal to; `KeyOf` reads the wire text. */
  datatype Key =
    | CONNECT | DISCONNECT | RESET | HEARTBEAT | HEARTBEAT_ACK | SUBSCRIBE | UNSUBSCRIBE
    | Named(text: PlainText)

  function KeyOf(text: string): (k: Key)
  {
    if text == "__CONNECT__" then CONNECT
    else if text == "__DISCONNECT__" then DISCONNECT
    else if text == "__RESET__" then RESET
    else if text == "__HEARTBEAT__" then HEARTBEAT
    else if text == "__HEARTBEAT_ACK__" then HEARTBEAT_ACK
    else if text == "__SUBSCRIBE__" then SUBSCRIBE
    else if text == "__UNSUBSCRIBE__" then UNSUBSCRIBE
    else Named(text)
  }

  /** The wire text of a key. */
  function TextOf(k: Key): (text: string)
  {
    match k
    case CONNECT => "__CONNECT__"
    case DISCONNECT => "__DISCONNECT__"
    case RESET => "__RESET__"
    case HEARTBEAT => "__HEARTBEAT__"
    case HEARTBEAT_ACK => "__HEARTBEAT_ACK__"
    case SUBSCRIBE => "__SUBSCRIBE__"
    case UNSUBSCRIBE => "__UNSUBSCRIBE__"
    case Named(text) => text
  }

  /** Every text is the text of one key, and every key is read back from its text. */
  lemma KeyTextRoundTrip(text: string, k: Key)
    ensures TextOf(KeyOf(text)) == text && KeyOf(TextOf(k)) == k
  {
  }

  /** Comparing keys is comparing their wire texts. */
  lemma SameKeyIffSameText(a: string, b: string)
    ensures KeyOf(a) == KeyOf(b) <==> a == b
  {
  }

  /** The keys a broker answers itself when they come from a local client. */
  predicate HandledLocally(k: Key)
  {
    k == CONNECT || k == DISCONNECT || k == HEARTBEAT || k == SUBSCRIBE || k == UNSUBSCRIBE
  }

  datatype Header = Header(
    key: Key,
    senderId: string,
    topic: string,
    originBroker: string,
    uuid: string,
    transferId: string,
    sequenceNumber: int,
    sequenceCount: int,
    replyTopic: string)

  datatype Envelope = Envelope(header: Header, payload: Bytes)

  /** A header with only key, sender and topic set; no uuid, empty payload. */
  function Control(key: Key, senderId: string, topic: string): (env: Envelope)
  {
    Envelope(Header(key, senderId, topic, "", "", "", 0, 0, ""), [])
  }
}

/** Facts about sequences without repeats that several modules share. */
module Sequences {

  ghost predicate NoRepeats<T>(s: seq<T>)
  {
    forall i, j :: 0 <= i < j < |s| ==> s[i] != s[j]
  }

  /** A sequence without repeats is no longer than a set that holds its elements. */
  lemma {:induction false} BoundedByRange<T>(s: seq<T>, range: set<T>)
    requires NoRepeats(s)
    requires forall i :: 0 <= i < |s| ==> s[i] in range
    ensures |s| <= |range|
  {
    if s != [] {
      var last := s[|s| - 1];
      BoundedByRange(s[..|s| - 1], range - {last});
    }
  }

  /** Without repeats, a sequence and its set of elements have the same multiset. */
  lemma {:induction false} RangeAsMultiset<T>(s: seq<T>, range: set<T>)
    requires NoRepeats(s)
    requires forall x :: x in range <==> x in s
    ensures multiset(s) == multiset(range)
  {
    if s == [] {
      assert range == {};
    } else {
      var last := s[|s| - 1];
      var front := s[..|s| - 1];
      assert s == front + [last];
      assert last in range;
      forall x ensures x in range - {last} <==> x in front {
        if x in s && x != last {
          var i :| 0 <= i < |s| && s[i] == x;
          assert front[i] == x;
        }
      }
      RangeAsMultiset(front, range - {last});
      assert range == (range - {last}) + {last};
    }
  }

  lemma {:induction false} Subset<T>(a: set<T>, b: set<T>)
    requires a <= b
    ensures |a| <= |b|
  {
    if a != {} {
      var x :| x in a;
      Subset(a - {x}, b - {x});
    }
  }
}
