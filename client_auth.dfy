/**
 * `AuthService` of client/src/lib/auth.ts: the current-user slot kept under one
 * localStorage key, and the avatar initials computed from a user's full name.
 */
module ClientAuth {
  import opened Wrappers

  datatype AuthUser = AuthUser(id: string, email: string, fullName: string, isActive: bool, createdAt: int)

  /** `s.split(sep)` for a one-character separator: never empty, and "" splits into [""]. */
  function Split(s: string, sep: char): (parts: seq<string>)
    ensures |parts| >= 1
    ensures forall i :: 0 <= i < |parts| ==> sep !in parts[i]
    decreases |s|
  {
    if s == [] then [""]
    else
      var rest := Split(s[1..], sep);
      if s[0] == sep then [""] + rest
      else
        assert forall i :: 1 <= i < |rest| ==> rest[i] == rest[1..][i - 1];
        [[s[0]] + rest[0]] + rest[1..]
  }

  /** `parts.join(sep)`. */
  function Join(parts: seq<string>, sep: string): string
    decreases |parts|
  {
    if parts == [] then ""
    else if |parts| == 1 then parts[0]
    else parts[0] + sep + Join(parts[1..], sep)
  }

  /** Splitting and joining again with the same separator gives back the string. */
  lemma {:induction false} SplitJoinRoundTrip(s: string, sep: char)
    ensures Join(Split(s, sep), [sep]) == s
    decreases |s|
  {
    if s != [] {
      var rest := Split(s[1..], sep);
      SplitJoinRoundTrip(s[1..], sep);
      if s[0] != sep {
        var parts := Split(s, sep);
        if |rest| == 1 {
          assert parts == [[s[0]] + rest[0]];
        } else {
          assert parts[1..] == rest[1..];
          assert Join(rest, [sep]) == rest[0] + [sep] + Join(rest[1..], [sep]);
        }
      } else {
        assert Split(s, sep)[1..] == rest;
      }
      assert s == [s[0]] + s[1..];
    }
  }

  /** `name[0]` as joined: the first character, or "" for the `undefined` of an empty segment. */
  function Head(name: string): string {
    if name == "" then "" else [name[0]]
  }

  function Heads(parts: seq<string>): seq<string>
    decreases |parts|
  {
    if parts == [] then [] else [Head(parts[0])] + Heads(parts[1..])
  }

  /** ASCII `toUpperCase`. */
  function UpperChar(c: char): char {
    if 'a' <= c <= 'z' then (c as int - 32) as char else c
  }

  function Upper(s: string): (r: string)
    ensures |r| == |s|
    ensures forall i :: 0 <= i < |s| ==> r[i] == UpperChar(s[i])
  {
    seq(|s|, i requires 0 <= i < |s| => UpperChar(s[i]))
  }

  /** `s.slice(0, n)`. */
  function Take(s: string, n: nat): string {
    if |s| <= n then s else s[..n]
  }

  /** `getUserInitials`: split on spaces, first characters, joined, upper-cased, at most two. */
  function GetUserInitials(user: AuthUser): (r: string)
    ensures |r| <= 2
    ensures forall i :: 0 <= i < |r| ==> !('a' <= r[i] <= 'z')
  {
    Take(Upper(Join(Heads(Split(user.fullName, ' ')), "")), 2)
  }

  /**
   * The reference reading of initials: a character starts a word when it is not a
   * space and is at the start (`afterSpace` initially true) or follows a space.
   */
  function WordStarts(s: string, afterSpace: bool): string
    decreases |s|
  {
    if s == [] then ""
    else (if afterSpace && s[0] != ' ' then [s[0]] else "") + WordStarts(s[1..], s[0] == ' ')
  }

  lemma {:induction false} JoinEmptyHead(parts: seq<string>)
    requires parts != []
    ensures Join(parts, "") == parts[0] + Join(parts[1..], "")
  {
    if |parts| == 1 {
      assert parts[1..] == [];
    }
  }

  /**
   * The first characters of all segments equal the word starts, and those of the
   * segments after the first equal the word starts after position 0.
   */
  lemma {:induction false} HeadsAreWordStarts(s: string)
    ensures Join(Heads(Split(s, ' ')), "") == WordStarts(s, true)
    ensures Join(Heads(Split(s, ' ')[1..]), "") == WordStarts(s, false)
    decreases |s|
  {
    if s != [] {
      var rest := Split(s[1..], ' ');
      HeadsAreWordStarts(s[1..]);
      var parts := Split(s, ' ');
      JoinEmptyHead(Heads(parts));
      if s[0] == ' ' {
        assert parts[1..] == rest;
      } else {
        assert parts[1..] == rest[1..];
        assert Head(parts[0]) == [s[0]];
      }
    }
  }

  /** Initials are the upper-cased word starts of the full name, at most two of them. */
  lemma InitialsAreWordStarts(user: AuthUser)
    ensures GetUserInitials(user) == Take(Upper(WordStarts(user.fullName, true)), 2)
  {
    HeadsAreWordStarts(user.fullName);
  }

  /** A word contributes its first character when it starts a word, and nothing else. */
  lemma {:induction false} WordStartsOverWord(w: string, rest: string, afterSpace: bool)
    requires w != [] && ' ' !in w
    ensures WordStarts(w + rest, afterSpace) == (if afterSpace then [w[0]] else "") + WordStarts(rest, false)
    decreases |w|
  {
    assert (w + rest)[0] == w[0] != ' ';
    assert (w + rest)[1..] == w[1..] + rest;
    var head := if afterSpace then [w[0]] else "";
    assert WordStarts(w + rest, afterSpace) == head + WordStarts(w[1..] + rest, false);
    if |w| > 1 {
      assert w[1..][0] in w;
      WordStartsOverWord(w[1..], rest, false);
    } else {
      assert w[1..] + rest == rest;
    }
  }

  lemma WordStartsAfterSpace(rest: string, afterSpace: bool)
    ensures WordStarts(" " + rest, afterSpace) == WordStarts(rest, true)
  {
    assert (" " + rest)[1..] == rest;
  }

  /** Two words give the upper-cased first letter of each: "Jane Smith" gives "JS". */
  lemma InitialsOfTwoWords(user: AuthUser, first: string, last: string)
    requires first != "" && last != "" && ' ' !in first && ' ' !in last
    requires user.fullName == first + " " + last
    ensures GetUserInitials(user) == [UpperChar(first[0]), UpperChar(last[0])]
  {
    WordStartsOverWord(last, "", true);
    assert last + "" == last;
    WordStartsAfterSpace(last, false);
    WordStartsOverWord(first, " " + last, true);
    assert first + " " + last == first + (" " + last);
    InitialsAreWordStarts(user);
  }

  /** Words after the second are dropped: "Dr. Jane Smith" gives "DJ". */
  lemma InitialsOfThreeWords(user: AuthUser, first: string, middle: string, last: string)
    requires first != "" && middle != "" && last != ""
    requires ' ' !in first && ' ' !in middle && ' ' !in last
    requires user.fullName == first + " " + middle + " " + last
    ensures GetUserInitials(user) == [UpperChar(first[0]), UpperChar(middle[0])]
  {
    WordStartsOverWord(last, "", true);
    assert last + "" == last;
    WordStartsAfterSpace(last, false);
    WordStartsOverWord(middle, " " + last, true);
    WordStartsAfterSpace(middle + " " + last, false);
    assert middle + " " + last == middle + (" " + last);
    WordStartsOverWord(first, " " + middle + " " + last, true);
    assert first + " " + middle + " " + last == first + (" " + middle + " " + last);
    assert " " + middle + " " + last == " " + (middle + " " + last);
    InitialsAreWordStarts(user);
  }

  /** A space in front of the name, or in front of any word, changes nothing. */
  lemma InitialsIgnoreExtraSpace(user: AuthUser, prefix: string, rest: string)
    requires prefix == "" || prefix[|prefix| - 1] == ' '
    requires user.fullName == prefix + " " + rest
    ensures GetUserInitials(user) == GetUserInitials(user.(fullName := prefix + rest))
  {
    InitialsAreWordStarts(user);
    InitialsAreWordStarts(user.(fullName := prefix + rest));
    WordStartsAppendSpace(prefix, rest);
  }

  /** Word starts of a concatenation, split at a boundary that ends in a space (or at the start). */
  lemma {:induction false} WordStartsAppendSpace(prefix: string, rest: string)
    requires prefix == "" || prefix[|prefix| - 1] == ' '
    ensures WordStarts(prefix + " " + rest, true) == WordStarts(prefix + rest, true)
    decreases |prefix|
  {
    if prefix == "" {
      assert "" + " " + rest == " " + rest;
      assert "" + rest == rest;
      WordStartsAfterSpace(rest, true);
    } else {
      WordStartsSplit(prefix, " " + rest, true);
      WordStartsSplit(prefix, rest, true);
      assert prefix + " " + rest == prefix + (" " + rest);
      WordStartsAfterSpace(rest, AfterSpaceAtEnd(prefix, true));
    }
  }

  /** Whether the position after `s` counts as following a space. */
  function AfterSpaceAtEnd(s: string, afterSpace: bool): bool {
    if s == [] then afterSpace else s[|s| - 1] == ' '
  }

  lemma {:induction false} WordStartsSplit(a: string, b: string, afterSpace: bool)
    ensures WordStarts(a + b, afterSpace) == WordStarts(a, afterSpace) + WordStarts(b, AfterSpaceAtEnd(a, afterSpace))
    decreases |a|
  {
    if a == [] {
      assert a + b == b;
    } else {
      var head := if afterSpace && a[0] != ' ' then [a[0]] else "";
      assert (a + b)[0] == a[0];
      assert (a + b)[1..] == a[1..] + b;
      assert WordStarts(a + b, afterSpace) == head + WordStarts(a[1..] + b, a[0] == ' ');
      assert WordStarts(a, afterSpace) == head + WordStarts(a[1..], a[0] == ' ');
      WordStartsSplit(a[1..], b, a[0] == ' ');
      if |a| > 1 {
        assert a[|a| - 1] == a[1..][|a[1..]| - 1];
      }
      assert AfterSpaceAtEnd(a[1..], a[0] == ' ') == AfterSpaceAtEnd(a, afterSpace);
    }
  }

  lemma InitialsOfJaneSmith(user: AuthUser)
    requires user.fullName == "Jane Smith"
    ensures GetUserInitials(user) == "JS"
  {
    assert "Jane Smith" == "Jane" + " " + "Smith";
    InitialsOfTwoWords(user, "Jane", "Smith");
  }

  lemma InitialsOfDrJaneSmith(user: AuthUser)
    requires user.fullName == "Dr. Jane Smith"
    ensures GetUserInitials(user) == "DJ"
  {
    assert "Dr. Jane Smith" == "Dr." + " " + "Jane" + " " + "Smith";
    InitialsOfThreeWords(user, "Dr.", "Jane", "Smith");
  }

  /** The current-user slot: the `care_manager_user` entry, holding a user or nothing. */
  class AuthService {
    var stored: Option<AuthUser>

    constructor (initial: Option<AuthUser>)
      ensures stored == initial
    {
      stored := initial;
    }

    function GetCurrentUser(): Option<AuthUser>
      reads this
    {
      stored
    }

    predicate IsAuthenticated()
      reads this
    {
      GetCurrentUser().Some?
    }

    /** Stores a user, or removes the entry when given none. */
    method SetCurrentUser(user: Option<AuthUser>)
      modifies this
      ensures stored == user
      ensures IsAuthenticated() <==> user.Some?
    {
      if user.Some? {
        stored := user;
      } else {
        stored := None;
      }
    }

    /** Removes the entry; a second logout changes nothing more. */
    method Logout()
      modifies this
      ensures stored == None
      ensures !IsAuthenticated()
    {
      stored := None;
    }
  }
}
