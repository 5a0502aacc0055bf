/** Where the chat screens read and write: the one public location, and the
    private location of a pair of users, addressed by
    `[senderId, receiverId].sort().join('_')`. */
module Rooms {
  import opened Js

  /** `'publicChat/'`. */
  const PublicPath: string := "publicChat/"

  /** The id of the private room of the signed-in user `senderId`
      (`undefined` when nobody is signed in) and `receiverId`. */
  function ChatId(senderId: Option<string>, receiverId: string): string {
    Join(SortPair(senderId, Some(receiverId)), "_")
  }

  /** `` `privateChats/${chatId}` ``. */
  function PrivatePath(chatId: string): string {
    "privateChats/" + chatId
  }

  /** The two ways a chat screen is opened. A private screen fixes both
      participants when it is shown. */
  datatype Room = PublicRoom | PrivateRoom(senderId: Option<string>, receiverId: string)

  function RoomPath(room: Room): string {
    match room
    case PublicRoom => PublicPath
    case PrivateRoom(s, r) => PrivatePath(ChatId(s, r))
  }

  /** For two signed-in users the room id is the smaller id (in `<` order),
      `_`, then the larger one, whichever of them opens the room. */
  lemma ChatIdSmallerFirst(a: string, b: string)
    requires !LexLess(b, a)
    ensures ChatId(Some(a), b) == a + "_" + b
    ensures ChatId(Some(b), a) == a + "_" + b
  {
    if a != b {
      LexLessTotal(a, b);
    }
    JoinPair(Some(a), Some(b), "_");
  }

  /** Both participants address the same room. */
  lemma ChatIdSymmetric(a: string, b: string)
    ensures ChatId(Some(a), b) == ChatId(Some(b), a)
  {
    if LexLess(b, a) {
      LexLessAsymmetric(a, b);
      ChatIdSmallerFirst(b, a);
    } else {
      ChatIdSmallerFirst(a, b);
    }
  }

  /** A user chatting with themself gets `A_A`. */
  lemma ChatIdSelf(a: string)
    ensures ChatId(Some(a), a) == a + "_" + a
  {
    LexLessIrreflexive(a);
    ChatIdSmallerFirst(a, a);
  }

  /** With nobody signed in, `undefined` sorts last and joins as the empty
      string: the room id is the receiver's id followed by `_`. */
  lemma ChatIdAnonymous(receiverId: string)
    ensures ChatId(None, receiverId) == receiverId + "_"
  {
    JoinPair(Some(receiverId), None, "_");
  }

  /** Splitting at the first `_` recovers both halves of a separator-free
      first half. */
  lemma SplitAtSeparator(x: string, y: string, u: string, v: string)
    requires '_' !in x && '_' !in u
    requires x + "_" + y == u + "_" + v
    ensures x == u && y == v
  {
    var s := x + "_" + y;
    assert s[|x|] == '_' && s[|u|] == '_';
    assert |x| == |u|;
    assert x == s[..|x|] && u == (u + "_" + v)[..|u|];
    assert y == s[|x| + 1..] && v == (u + "_" + v)[|u| + 1..];
  }

  /** Ids without `_` give different rooms to different pairs: the room id
      determines the pair it was built from. */
  lemma ChatIdInjective(a: string, b: string, c: string, d: string)
    requires '_' !in a && '_' !in b && '_' !in c && '_' !in d
    requires ChatId(Some(a), b) == ChatId(Some(c), d)
    ensures multiset{a, b} == multiset{c, d}
  {
    LexLessAsymmetric(a, b);
    LexLessAsymmetric(c, d);
    var lo1, hi1 := if LexLess(b, a) then b else a, if LexLess(b, a) then a else b;
    var lo2, hi2 := if LexLess(d, c) then d else c, if LexLess(d, c) then c else d;
    ChatIdSmallerFirst(lo1, hi1);
    ChatIdSmallerFirst(lo2, hi2);
    SplitAtSeparator(lo1, hi1, lo2, hi2);
  }

  /** Ids that contain `_` can collide: the pairs ("a_b", "c") and
      ("a", "b_c") share the room `a_b_c`. */
  lemma ChatIdCollidesWithSeparator()
    ensures multiset{"a_b", "c"} != multiset{"a", "b_c"}
    ensures ChatId(Some("a_b"), "c") == "a_b_c" && ChatId(Some("a"), "b_c") == "a_b_c"
  {
    var ab, c, a, bc := "a_b", "c", "a", "b_c";
    assert ChatId(Some(ab), c) == ab + "_" + c by {
      LexLessAtFirst(ab, c);
      ChatIdSmallerFirst(ab, c);
    }
    assert ChatId(Some(a), bc) == a + "_" + bc by {
      LexLessAtFirst(a, bc);
      ChatIdSmallerFirst(a, bc);
    }
    assert ab != a && ab != bc;
    assert ab !in multiset{a, bc};
  }

  /** Both participants of a private chat read and write one location. */
  lemma PrivatePathsMeet(a: string, b: string)
    ensures RoomPath(PrivateRoom(Some(a), b)) == RoomPath(PrivateRoom(Some(b), a))
  {
    ChatIdSymmetric(a, b);
  }

  /** No private room is the public room. */
  lemma PrivateIsNotPublic(s: Option<string>, r: string)
    ensures RoomPath(PrivateRoom(s, r)) != PublicPath
  {
    assert RoomPath(PrivateRoom(s, r))[1] == 'r' != PublicPath[1];
  }
}
