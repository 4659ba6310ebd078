/** The chat avatar: a brain icon for the assistant, and for the user the
    initials of the user's name, at most two upper-case characters, with
    "U" when no name is known. */
module ChatAvatar {
  import opened Wrappers
  import opened Text

  /** Who a message is from. */
  datatype AvatarKind = User | Assistant

  /** What the avatar shows. */
  datatype Avatar = BrainIcon | Initials(text: string)

  /** `n[0]` joined as a string: the first character of a word, or nothing
      for an empty word (`undefined` joins as ""). */
  function FirstChar(word: string): string {
    if |word| == 0 then "" else [word[0]]
  }

  /** `.map(n => n[0])` over the words. */
  function Heads(words: seq<string>): (r: seq<string>)
    ensures |r| == |words| && forall i :: 0 <= i < |words| ==> r[i] == FirstChar(words[i])
  {
    seq(|words|, i requires 0 <= i < |words| => FirstChar(words[i]))
  }

  /** `s.slice(0, n)`: the first `n` characters, or all of a shorter `s`. */
  function Slice(s: string, n: nat): (r: string)
    ensures |r| <= n && r <= s
    ensures |s| >= n ==> |r| == n
    ensures |s| < n ==> r == s
  {
    if |s| < n then s else s[..n]
  }

  /** The initials shown for `userName`: "U" unless the name is non-empty;
      otherwise the first characters of the space-separated words, joined,
      upper-cased, and cut to two characters. */
  function InitialsOf(userName: Option<string>): (r: string)
    ensures |r| <= 2
    ensures !Truthy(userName) ==> r == "U"
  {
    if Truthy(userName) then
      Slice(ToUpper(Join(Heads(Split(userName.value, ' ')), "")), 2)
    else
      "U"
  }

  /** `ChatAvatar`: the assistant gets the icon whatever the name; the user
      gets initials: "U" without a name, otherwise the upper-cased
      characters that begin a word, at most two. */
  function AvatarFor(kind: AvatarKind, userName: Option<string>): (a: Avatar)
    ensures a == BrainIcon <==> kind == Assistant
    ensures kind == User ==> a.Initials? && |a.text| <= 2
    ensures kind == User && !Truthy(userName) ==> a == Initials("U")
    ensures kind == User && Truthy(userName) ==>
              a == Initials(Slice(ToUpper(WordStarts(userName.value, true)), 2))
    ensures kind == User ==> a == Initials(InitialsOf(userName))
  {
    match kind
    case Assistant => BrainIcon
    case User =>
      if Truthy(userName) then
        InitialsAreWordStarts(userName.value);
        Initials(InitialsOf(userName))
      else
        Initials(InitialsOf(userName))
  }

  // -----------------------------------------------------------------------
  // A reference reading of the initials

  /** The characters of `s` that begin a word: a character that is not a
      space and comes first or right after a space. `atWordStart` says
      whether the character before `s` was a space (or there was none). */
  function WordStarts(s: string, atWordStart: bool): string
    decreases |s|
  {
    if |s| == 0 then ""
    else if s[0] == ' ' then WordStarts(s[1..], true)
    else (if atWordStart then [s[0]] else "") + WordStarts(s[1..], false)
  }

  /** The first characters of the words, concatenated. */
  function FirstChars(words: seq<string>): string {
    if |words| == 0 then "" else FirstChar(words[0]) + FirstChars(words[1..])
  }

  /** Joining the heads with "" concatenates them. */
  lemma {:induction false} JoinHeads(words: seq<string>)
    ensures Join(Heads(words), "") == FirstChars(words)
  {
    if |words| >= 2 {
      assert Heads(words)[1..] == Heads(words[1..]);
      JoinHeads(words[1..]);
    } else if |words| == 1 {
      assert words[1..] == [];
    }
  }

  /** Splitting on spaces and taking each word's first character picks the
      characters that begin a word; the words after the first give those
      after the first character of `s`. */
  lemma {:induction false} SplitFirstChars(s: string)
    ensures FirstChars(Split(s, ' ')) == WordStarts(s, true)
    ensures FirstChars(Split(s, ' ')[1..]) == WordStarts(s, false)
    decreases |s|
  {
    if |s| > 0 {
      var rest := Split(s[1..], ' ');
      SplitFirstChars(s[1..]);
      if s[0] == ' ' {
        assert Split(s, ' ') == [""] + rest;
        assert Split(s, ' ')[1..] == rest;
      } else {
        var parts := [[s[0]] + rest[0]] + rest[1..];
        assert Split(s, ' ') == parts;
        assert parts[1..] == rest[1..];
        assert FirstChar(parts[0]) == [s[0]];
      }
    }
  }

  /** Before upper-casing and truncation the initials are exactly the
      characters that begin a word, in order; empty words from repeated,
      leading or trailing spaces add nothing. */
  lemma InitialsAreWordStarts(name: string)
    requires name != ""
    ensures InitialsOf(Some(name)) == Slice(ToUpper(WordStarts(name, true)), 2)
  {
    JoinHeads(Split(name, ' '));
    SplitFirstChars(name);
  }

  /** The initials are the first characters of the upper-cased word starts:
      truncation comes after upper-casing. */
  lemma InitialsPrefix(name: string)
    requires name != ""
    ensures InitialsOf(Some(name)) <= ToUpper(WordStarts(name, true))
    ensures |InitialsOf(Some(name))| == if |WordStarts(name, true)| < 2 then |WordStarts(name, true)| else 2
  {
    InitialsAreWordStarts(name);
  }

  /** No word start is a space, and there are no more of them than
      characters. */
  lemma {:induction false} WordStartsBounds(s: string, atWordStart: bool)
    ensures |WordStarts(s, atWordStart)| <= |s|
    ensures ' ' !in WordStarts(s, atWordStart)
    decreases |s|
  {
    if |s| > 0 {
      WordStartsBounds(s[1..], s[0] == ' ');
    }
  }

  /** `s` has a word start exactly when it has a character other than a
      space (the first such character begins a word). */
  lemma {:induction false} WordStartsEmpty(s: string)
    ensures WordStarts(s, true) == "" <==> forall i :: 0 <= i < |s| ==> s[i] == ' '
    decreases |s|
  {
    if |s| > 0 {
      WordStartsEmpty(s[1..]);
      if s[0] == ' ' {
        assert forall i :: 0 < i < |s| ==> s[i] == s[1..][i - 1];
      } else {
        assert WordStarts(s, true)[0] == s[0];
      }
    }
  }

  /** A non-empty name shows no initials exactly when it is made only of
      spaces; otherwise it shows one or two characters. */
  lemma BlankNameHasNoInitials(name: string)
    requires name != ""
    ensures InitialsOf(Some(name)) == "" <==> forall i :: 0 <= i < |name| ==> name[i] == ' '
  {
    InitialsAreWordStarts(name);
    WordStartsEmpty(name);
  }

  /** Repeating a space between two parts of a name changes nothing. */
  lemma {:induction false} DoubleSpaceIgnored(a: string, b: string, atWordStart: bool)
    ensures WordStarts(a + "  " + b, atWordStart) == WordStarts(a + " " + b, atWordStart)
    decreases |a|
  {
    if |a| == 0 {
      assert a + "  " + b == " " + (" " + b);
      assert a + " " + b == " " + b;
      assert (" " + (" " + b))[1..] == " " + b;
      assert (" " + b)[1..] == b;
    } else {
      assert (a + "  " + b)[0] == a[0] && (a + "  " + b)[1..] == a[1..] + "  " + b;
      assert (a + " " + b)[0] == a[0] && (a + " " + b)[1..] == a[1..] + " " + b;
      DoubleSpaceIgnored(a[1..], b, a[0] == ' ');
    }
  }
}
