/**
 * `MemStorage` of server/storage.ts: three tables (users, conversations, messages)
 * kept in insertion order, as the JavaScript `Map`s iterate, and the mock `bcrypt`
 * used to store passwords. Fresh ids (`randomUUID`) and clock readings (`new Date()`,
 * as milliseconds) are inputs.
 */
module Storage {
  import opened Wrappers
  import Sequences

  /** The salt round count `createUser` hashes with. */
  const SaltRounds: nat := 10

  function DigitChar(d: nat): (c: char)
    requires d < 10
    ensures '0' <= c <= '9'
  {
    ('0' as int + d) as char
  }

  /** The decimal rendering of a salt round count inside a template string. */
  function Decimal(n: nat): (d: string)
    ensures |d| >= 1
    ensures forall i :: 0 <= i < |d| ==> '0' <= d[i] <= '9'
    ensures |d| == 1 <==> n < 10
  {
    if n < 10 then [DigitChar(n)] else Decimal(n / 10) + [DigitChar(n % 10)]
  }

  /** The mock `bcrypt.hash`. */
  function Hash(password: string, saltRounds: nat): string {
    "hashed_" + password + "_" + Decimal(saltRounds)
  }

  /** The mock `bcrypt.compare`, which assumes 10 salt rounds. */
  predicate Compare(password: string, hashed: string) {
    hashed == "hashed_" + password + "_10"
  }

  lemma DecimalIsTen(n: nat)
    ensures Decimal(n) == "10" <==> n == 10
  {
    if Decimal(n) == "10" {
      assert n >= 10;
      assert Decimal(n / 10) == [Decimal(n)[0]];
      assert Decimal(n)[1] == DigitChar(n % 10) == '0';
      assert DigitChar(n / 10) == '1';
    }
  }

  predicate AllDigits(s: string) {
    forall i :: 0 <= i < |s| ==> '0' <= s[i] <= '9'
  }

  lemma UnderscoreAt(a: string, d: string)
    ensures (a + "_" + d)[|a|] == '_'
  {
  }

  lemma DigitAt(b: string, e: string, k: int)
    requires AllDigits(e) && |b| < k < |b| + 1 + |e|
    ensures '0' <= (b + "_" + e)[k] <= '9'
  {
    assert (b + "_" + e)[k] == e[k - |b| - 1];
  }

  /** The digits after the last underscore can be told apart from what precedes it. */
  lemma SplitAtLastUnderscore(a: string, d: string, b: string, e: string)
    requires AllDigits(d) && AllDigits(e)
    requires a + "_" + d == b + "_" + e
    ensures a == b && d == e
  {
    if |d| < |e| {
      UnderscoreAt(a, d);
      DigitAt(b, e, |a|);
      assert false;
    } else if |d| > |e| {
      UnderscoreAt(b, e);
      DigitAt(a, d, |b|);
      assert false;
    } else {
      assert a == (a + "_" + d)[..|a|] == (b + "_" + e)[..|b|] == b;
      assert d == (a + "_" + d)[|a| + 1..] == (b + "_" + e)[|b| + 1..] == e;
    }
  }

  /**
   * A stored hash verifies exactly the password it was made from, and only when it
   * was made with the 10 rounds `compare` assumes.
   */
  lemma HashCompareRoundTrip(password: string, candidate: string, saltRounds: nat)
    ensures Compare(candidate, Hash(password, saltRounds)) <==> candidate == password && saltRounds == SaltRounds
  {
    DecimalIsTen(saltRounds);
    if Compare(candidate, Hash(password, saltRounds)) {
      var a, b := "hashed_" + password, "hashed_" + candidate;
      SplitAtLastUnderscore(a, Decimal(saltRounds), b, "10");
      assert password == a[7..] == b[7..] == candidate;
    }
  }

  /** The round trip for every way a stored hash could have been made. */
  lemma CompareAgainstHash(password: string, hashed: string)
    ensures forall original, rounds: nat :: hashed == Hash(original, rounds) ==>
              (Compare(password, hashed) <==> password == original && rounds == SaltRounds)
  {
    forall original, rounds: nat | hashed == Hash(original, rounds)
      ensures Compare(password, hashed) <==> password == original && rounds == SaltRounds
    {
      HashCompareRoundTrip(original, password, rounds);
    }
  }

  datatype InsertUser = InsertUser(email: string, password: string, fullName: string)
  datatype User = User(id: string, email: string, password: string, fullName: string, isActive: bool, createdAt: int)
  datatype InsertConversation = InsertConversation(userId: string, title: string)
  datatype Conversation = Conversation(id: string, userId: string, title: string, createdAt: int, updatedAt: int)
  datatype InsertMessage = InsertMessage(conversationId: string, content: string, isFromUser: bool,
                                         messageType: Option<string>, audioUrl: Option<string>)
  datatype Message = Message(id: string, conversationId: string, content: string, isFromUser: bool,
                             messageType: string, audioUrl: Option<string>, createdAt: int)

  function UserId(u: User): string { u.id }
  function ConversationId(c: Conversation): string { c.id }
  function MessageId(m: Message): string { m.id }

  /** No two rows of a table share an id: the tables are maps keyed by id. */
  ghost predicate DistinctIds<T>(rows: seq<T>, id: T -> string) {
    forall i, j :: 0 <= i < j < |rows| ==> id(rows[i]) != id(rows[j])
  }

  ghost predicate HasId<T>(rows: seq<T>, id: T -> string, key: string) {
    exists i :: 0 <= i < |rows| && id(rows[i]) == key
  }

  /** `Map.get`: the row stored under `key`. */
  function Lookup<T>(rows: seq<T>, id: T -> string, key: string): (r: Option<T>)
    ensures r.None? <==> !HasId(rows, id, key)
    ensures r.Some? ==> r.value in rows && id(r.value) == key
  {
    if rows == [] then None
    else if id(rows[0]) == key then Some(rows[0])
    else
      var r := Lookup(rows[1..], id, key);
      assert r.None? ==> forall i :: 1 <= i < |rows| ==> rows[i] == rows[1..][i - 1];
      r
  }

  /** The user `createUser` stores: the password hashed, the account active. */
  function NewUser(input: InsertUser, id: string, now: int): (u: User)
    ensures u.id == id && u.email == input.email && u.fullName == input.fullName
    ensures u.isActive && u.createdAt == now
    ensures Compare(input.password, u.password)
  {
    HashCompareRoundTrip(input.password, input.password, SaltRounds);
    User(id, input.email, Hash(input.password, SaltRounds), input.fullName, true, now)
  }

  /** `Array.from(users.values()).find(u => u.email === email)`. */
  function FindByEmail(users: seq<User>, email: string): (r: Option<User>)
    ensures r.None? <==> forall i :: 0 <= i < |users| ==> users[i].email != email
    ensures r.Some? ==>
      exists i :: 0 <= i < |users| && users[i] == r.value && r.value.email == email &&
                  forall j :: 0 <= j < i ==> users[j].email != email
  {
    if users == [] then None
    else if users[0].email == email then Some(users[0])
    else
      var r := FindByEmail(users[1..], email);
      assert forall i :: 1 <= i < |users| ==> users[i] == users[1..][i - 1];
      if r.Some? then
        var i :| 0 <= i < |users[1..]| && users[1..][i] == r.value && r.value.email == email &&
                 forall j :: 0 <= j < i ==> users[1..][j].email != email;
        assert users[i + 1] == r.value;
        r
      else r
  }

  /** The conversation `createConversation` stores: created and updated at the same instant. */
  function NewConversation(input: InsertConversation, id: string, now: int): (c: Conversation)
    ensures c.id == id && c.userId == input.userId && c.title == input.title
    ensures c.createdAt == c.updatedAt == now
  {
    Conversation(id, input.userId, input.title, now, now)
  }

  /** The message `createMessage` stores: `messageType || "text"` and `audioUrl || null`. */
  function NewMessage(input: InsertMessage, id: string, now: int): (m: Message)
    ensures m.id == id && m.conversationId == input.conversationId
    ensures m.content == input.content && m.isFromUser == input.isFromUser && m.createdAt == now
    ensures m.messageType != ""
    ensures m.messageType == "text" <==>
            input.messageType.None? || input.messageType.value == "" || input.messageType.value == "text"
    ensures input.messageType.Some? && input.messageType.value != "" ==> m.messageType == input.messageType.value
    ensures m.audioUrl.Some? <==> input.audioUrl.Some? && input.audioUrl.value != ""
    ensures m.audioUrl.Some? ==> m.audioUrl == input.audioUrl
  {
    var messageType := if input.messageType.Some? && input.messageType.value != "" then input.messageType.value else "text";
    var audioUrl := if input.audioUrl.Some? && input.audioUrl.value != "" then input.audioUrl else None;
    Message(id, input.conversationId, input.content, input.isFromUser, messageType, audioUrl, now)
  }

  /** The stored conversation with id `conversationId`, if any, bumped to `now`; the others as they were. */
  function Touch(conversations: seq<Conversation>, conversationId: string, now: int): seq<Conversation> {
    seq(|conversations|, i requires 0 <= i < |conversations| =>
      if conversations[i].id == conversationId then conversations[i].(updatedAt := now) else conversations[i])
  }

  /**
   * Posting a message never creates or removes a conversation and changes nothing but
   * the `updatedAt` of the one it belongs to, if that exists.
   */
  lemma TouchOnlyBumpsOwner(conversations: seq<Conversation>, conversationId: string, now: int)
    ensures var r := Touch(conversations, conversationId, now);
            && |r| == |conversations|
            && (forall i :: 0 <= i < |r| ==> r[i].id == conversations[i].id && r[i].userId == conversations[i].userId &&
                                             r[i].title == conversations[i].title && r[i].createdAt == conversations[i].createdAt)
            && (forall i :: 0 <= i < |r| && conversations[i].id != conversationId ==> r[i] == conversations[i])
            && (forall i :: 0 <= i < |r| && conversations[i].id == conversationId ==> r[i].updatedAt == now)
            && (!HasId(conversations, ConversationId, conversationId) ==> r == conversations)
  {
  }

  /** The conversations of one user, in insertion order. */
  function OwnedBy(conversations: seq<Conversation>, userId: string): seq<Conversation> {
    Sequences.Where(conversations, (c: Conversation) => c.userId == userId)
  }

  /** The sort key of `(a, b) => b.updatedAt - a.updatedAt`: most recently updated first. */
  function RecentFirst(c: Conversation): int { -c.updatedAt }

  /** The messages of one conversation, in insertion order. */
  function InConversation(messages: seq<Message>, conversationId: string): seq<Message> {
    Sequences.Where(messages, (m: Message) => m.conversationId == conversationId)
  }

  /** The sort key of `(a, b) => a.createdAt - b.createdAt`: oldest first. */
  function Chronological(m: Message): int { m.createdAt }

  /** `getConversationsByUserId`: filter, then the stable sort by `updatedAt` descending. */
  function ConversationsOf(conversations: seq<Conversation>, userId: string): seq<Conversation> {
    Sequences.SortBy(OwnedBy(conversations, userId), RecentFirst)
  }

  /** `getMessagesByConversationId`: filter, then the stable sort by `createdAt` ascending. */
  function MessagesOf(messages: seq<Message>, conversationId: string): seq<Message> {
    Sequences.SortBy(InConversation(messages, conversationId), Chronological)
  }

  /**
   * A user's conversation list holds exactly that user's conversations, each as
   * often as stored, most recently updated first, with equal `updatedAt` in
   * insertion order.
   */
  lemma ConversationsOfSpec(conversations: seq<Conversation>, userId: string)
    ensures var r := ConversationsOf(conversations, userId);
            && (forall c :: c in r <==> c in conversations && c.userId == userId)
            && multiset(r) == multiset(OwnedBy(conversations, userId))
            && (forall i, j :: 0 <= i < j < |r| ==> r[i].updatedAt >= r[j].updatedAt)
            && (forall k :: Sequences.Tied(r, RecentFirst, k) == Sequences.Tied(OwnedBy(conversations, userId), RecentFirst, k))
  {
    var r := ConversationsOf(conversations, userId);
    Sequences.SortByCorrect(OwnedBy(conversations, userId), RecentFirst);
    forall c ensures c in r <==> c in OwnedBy(conversations, userId) {
      assert c in r <==> c in multiset(r);
    }
    forall i, j | 0 <= i < j < |r| ensures r[i].updatedAt >= r[j].updatedAt {
      assert RecentFirst(r[i]) <= RecentFirst(r[j]);
    }
  }

  /** Those four facts pin the list down: it is the only order that has them. */
  lemma ConversationsOfIsUnique(conversations: seq<Conversation>, userId: string, r: seq<Conversation>)
    requires forall i, j :: 0 <= i < j < |r| ==> r[i].updatedAt >= r[j].updatedAt
    requires forall k :: Sequences.Tied(r, RecentFirst, k) == Sequences.Tied(OwnedBy(conversations, userId), RecentFirst, k)
    ensures r == ConversationsOf(conversations, userId)
  {
    ConversationsOfSpec(conversations, userId);
    assert Sequences.SortedBy(r, RecentFirst) by {
      forall i, j | 0 <= i < j < |r| ensures RecentFirst(r[i]) <= RecentFirst(r[j]) {
      }
    }
    Sequences.SortByCorrect(OwnedBy(conversations, userId), RecentFirst);
    Sequences.SortedAndTiedIsUnique(r, ConversationsOf(conversations, userId), RecentFirst);
  }

  /**
   * A conversation's transcript holds exactly its messages, each as often as stored,
   * oldest first, with equal `createdAt` in insertion order.
   */
  lemma MessagesOfSpec(messages: seq<Message>, conversationId: string)
    ensures var r := MessagesOf(messages, conversationId);
            && (forall m :: m in r <==> m in messages && m.conversationId == conversationId)
            && multiset(r) == multiset(InConversation(messages, conversationId))
            && (forall i, j :: 0 <= i < j < |r| ==> r[i].createdAt <= r[j].createdAt)
            && (forall k :: Sequences.Tied(r, Chronological, k) == Sequences.Tied(InConversation(messages, conversationId), Chronological, k))
  {
    var r := MessagesOf(messages, conversationId);
    Sequences.SortByCorrect(InConversation(messages, conversationId), Chronological);
    forall m ensures m in r <==> m in InConversation(messages, conversationId) {
      assert m in r <==> m in multiset(r);
    }
    forall i, j | 0 <= i < j < |r| ensures r[i].createdAt <= r[j].createdAt {
      assert Chronological(r[i]) <= Chronological(r[j]);
    }
  }

  /** The in-memory store; each table is a map from id to row, iterated in insertion order. */
  class MemStorage {
    var users: seq<User>
    var conversations: seq<Conversation>
    var messages: seq<Message>

    ghost predicate Valid()
      reads this
    {
      && DistinctIds(users, UserId)
      && DistinctIds(conversations, ConversationId)
      && DistinctIds(messages, MessageId)
    }

    constructor ()
      ensures Valid() && users == [] && conversations == [] && messages == []
    {
      users, conversations, messages := [], [], [];
    }

    /** `getUser`: the stored user with that id, if any. */
    function GetUser(id: string): (r: Option<User>)
      reads this
      ensures r.None? <==> forall i :: 0 <= i < |users| ==> users[i].id != id
      ensures r.Some? ==> r.value in users && r.value.id == id
    {
      Lookup(users, UserId, id)
    }

    /** `getUserByEmail`: the first stored user with that email, if any. */
    function GetUserByEmail(email: string): (r: Option<User>)
      reads this
      ensures r.None? <==> forall i :: 0 <= i < |users| ==> users[i].email != email
      ensures r.Some? ==>
        exists i :: 0 <= i < |users| && users[i] == r.value && r.value.email == email &&
                    forall j :: 0 <= j < i ==> users[j].email != email
    {
      FindByEmail(users, email)
    }

    /** Stores one new user under a fresh id. */
    method CreateUser(input: InsertUser, id: string, now: int) returns (user: User)
      requires Valid() && !HasId(users, UserId, id)
      modifies this
      ensures Valid()
      ensures user == NewUser(input, id, now)
      ensures users == old(users) + [user]
      ensures conversations == old(conversations) && messages == old(messages)
    {
      user := NewUser(input, id, now);
      users := users + [user];
    }

    /** `verifyPassword`: accepts a hash exactly when it was made from this password with the store's rounds. */
    function VerifyPassword(password: string, hashed: string): (ok: bool)
      ensures forall original, rounds: nat :: hashed == Hash(original, rounds) ==>
                (ok <==> password == original && rounds == SaltRounds)
    {
      CompareAgainstHash(password, hashed);
      Compare(password, hashed)
    }

    /** `getConversationsByUserId`: the user's conversations, most recently updated first. */
    function GetConversationsByUserId(userId: string): (r: seq<Conversation>)
      reads this
      ensures forall c :: c in r <==> c in conversations && c.userId == userId
      ensures multiset(r) == multiset(OwnedBy(conversations, userId))
      ensures forall i, j :: 0 <= i < j < |r| ==> r[i].updatedAt >= r[j].updatedAt
      ensures forall k :: Sequences.Tied(r, RecentFirst, k) == Sequences.Tied(OwnedBy(conversations, userId), RecentFirst, k)
    {
      ConversationsOfSpec(conversations, userId);
      ConversationsOf(conversations, userId)
    }

    /** Stores one new conversation under a fresh id. */
    method CreateConversation(input: InsertConversation, id: string, now: int) returns (conversation: Conversation)
      requires Valid() && !HasId(conversations, ConversationId, id)
      modifies this
      ensures Valid()
      ensures conversation == NewConversation(input, id, now)
      ensures conversations == old(conversations) + [conversation]
      ensures users == old(users) && messages == old(messages)
    {
      conversation := NewConversation(input, id, now);
      conversations := conversations + [conversation];
    }

    /** `getConversation`: the stored conversation with that id, if any. */
    function GetConversation(id: string): (r: Option<Conversation>)
      reads this
      ensures r.None? <==> forall i :: 0 <= i < |conversations| ==> conversations[i].id != id
      ensures r.Some? ==> r.value in conversations && r.value.id == id
    {
      Lookup(conversations, ConversationId, id)
    }

    /** `getMessagesByConversationId`: the conversation's messages, oldest first. */
    function GetMessagesByConversationId(conversationId: string): (r: seq<Message>)
      reads this
      ensures forall m :: m in r <==> m in messages && m.conversationId == conversationId
      ensures multiset(r) == multiset(InConversation(messages, conversationId))
      ensures forall i, j :: 0 <= i < j < |r| ==> r[i].createdAt <= r[j].createdAt
      ensures forall k :: Sequences.Tied(r, Chronological, k) == Sequences.Tied(InConversation(messages, conversationId), Chronological, k)
    {
      MessagesOfSpec(messages, conversationId);
      MessagesOf(messages, conversationId)
    }

    /**
     * Stores one new message under a fresh id and bumps the `updatedAt` of its
     * conversation when that conversation exists; both clock readings are `now`.
     */
    method CreateMessage(input: InsertMessage, id: string, now: int) returns (message: Message)
      requires Valid() && !HasId(messages, MessageId, id)
      modifies this
      ensures Valid()
      ensures message == NewMessage(input, id, now)
      ensures messages == old(messages) + [message]
      ensures conversations == Touch(old(conversations), input.conversationId, now)
      ensures users == old(users)
    {
      message := NewMessage(input, id, now);
      messages := messages + [message];
      var i := IndexOf(conversations, input.conversationId);
      if i.Some? {
        var k := i.value;
        conversations := conversations[k := conversations[k].(updatedAt := now)];
      }
    }
  }

  /** The position of the conversation stored under `conversationId`. */
  function IndexOf(conversations: seq<Conversation>, conversationId: string): (r: Option<nat>)
    ensures r.None? ==> !HasId(conversations, ConversationId, conversationId)
    ensures r.Some? ==> r.value < |conversations| && conversations[r.value].id == conversationId
  {
    if conversations == [] then None
    else if conversations[0].id == conversationId then Some(0)
    else
      match IndexOf(conversations[1..], conversationId)
      case None =>
        assert forall i :: 1 <= i < |conversations| ==> conversations[i] == conversations[1..][i - 1];
        None
      case Some(k) => Some(k + 1)
  }
}
