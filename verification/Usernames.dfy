/**
  Linux account names made from application usernames, the gateway login printed for a grant, and the parser that
  reads the login back.  Lower-casing a text is a parameter: all that is used of it is that it fixes account names.
 */
module Usernames {
  import opened Common

  predicate IsAlnum(c: char) {
    'a' <= c <= 'z' || '0' <= c <= '9'
  }

  predicate IsNameChar(c: char) {
    IsAlnum(c) || c == '_'
  }

  const LETTERS := "abcdefghijklmnopqrstuvwxyz"

  const DIGITS := "0123456789"

  lemma LettersAre(c: char)
    ensures 'a' <= c <= 'z' <==> c in LETTERS
  {
    if 'a' <= c <= 'z' {
      assert LETTERS[c as int - 'a' as int] == c;
    }
  }

  lemma DigitsAre(c: char)
    ensures '0' <= c <= '9' <==> c in DIGITS
  {
    if '0' <= c <= '9' {
      assert DIGITS[c as int - '0' as int] == c;
    }
  }

  /** The character classes, letter by letter. */
  lemma ClassesAre(c: char)
    ensures IsAlnum(c) <==> c in LETTERS || c in DIGITS
    ensures IsNameChar(c) <==> c in LETTERS || c in DIGITS || c == '_'
    ensures IsDigit(c) <==> c in DIGITS
    ensures IsHead(c) <==> c in LETTERS || c == '_'
    ensures IsTail(c) <==> c in LETTERS || c in DIGITS || c == '_' || c == '-'
  {
    LettersAre(c);
    DigitsAre(c);
  }

  predicate IsNameText(s: string) {
    forall c | c in s :: IsNameChar(c)
  }

  predicate IsDigit(c: char) { '0' <= c <= '9' }

  // ---------------------------------------------------------------- sanitizing

  /** Every maximal run of other characters becomes one underscore.  `inRun`: the previous character was such a one. */
  function Substitute(s: string, inRun: bool): (t: string)
    ensures IsNameText(t)
  {
    if s == "" then ""
    else if IsNameChar(s[0]) then [s[0]] + Substitute(s[1..], false)
    else (if inRun then "" else "_") + Substitute(s[1..], true)
  }

  function StripLeft(s: string): string {
    if s != "" && s[0] == '_' then StripLeft(s[1..]) else s
  }

  function StripRight(s: string): string {
    if s != "" && s[|s| - 1] == '_' then StripRight(s[..|s| - 1]) else s
  }

  /** Every run of underscores becomes one. */
  function Squeeze(s: string): string {
    if |s| < 2 then s
    else if s[0] == '_' && s[1] == '_' then Squeeze(s[1..])
    else [s[0]] + Squeeze(s[1..])
  }

  function Cleaned(lowered: string): string {
    Squeeze(StripRight(StripLeft(Substitute(lowered, false))))
  }

  const LIMIT := 32

  function Prefixed(lowered: string): string {
    var cleaned := if Cleaned(lowered) == "" then "user" else Cleaned(lowered);
    if "pam_" <= cleaned then cleaned else "pam_" + cleaned
  }

  function Sanitize(lower: string -> string, username: string): string {
    var prefixed := Prefixed(lower(username));
    if |prefixed| > LIMIT then prefixed[..LIMIT] else prefixed
  }

  /** The full-match check made before a grant is created. */
  predicate IsLinuxName(s: string) {
    1 <= |s| <= LIMIT && IsNameText(s)
  }

  predicate DoubleAt(s: string, i: int) {
    0 <= i < |s| - 1 && s[i] == '_' && s[i + 1] == '_'
  }

  predicate NoDouble(s: string) {
    forall i :: 0 <= i < |s| ==> !DoubleAt(s, i)
  }

  ghost predicate FixesNames(lower: string -> string) {
    forall s :: IsNameText(s) ==> lower(s) == s
  }

  /** The maximal runs of letters and digits, `word` being the run read so far. */
  function WordsFrom(s: string, word: string): seq<string> {
    if s == "" then Run(word)
    else if IsAlnum(s[0]) then WordsFrom(s[1..], word + [s[0]])
    else Run(word) + WordsFrom(s[1..], "")
  }

  function Run(word: string): seq<string> {
    if word == "" then [] else [word]
  }

  function Words(s: string): seq<string> {
    WordsFrom(s, "")
  }

  function Join(words: seq<string>): string {
    if words == [] then "" else if |words| == 1 then words[0] else words[0] + "_" + Join(words[1..])
  }

  lemma {:induction false} SubstituteKeepsWords(s: string, inRun: bool, word: string)
    requires inRun ==> word == ""
    ensures WordsFrom(Substitute(s, inRun), word) == WordsFrom(s, word)
  {
    if s == "" {
    } else {
      var t := Substitute(s, inRun);
      if IsAlnum(s[0]) {
        assert t[1..] == Substitute(s[1..], false);
        SubstituteKeepsWords(s[1..], false, word + [s[0]]);
      } else {
        SubstituteKeepsWords(s[1..], !IsNameChar(s[0]), "");
        if IsNameChar(s[0]) || !inRun {
          assert t[0] == '_' && t[1..] == Substitute(s[1..], !IsNameChar(s[0]));
        } else {
          assert t == Substitute(s[1..], true);
        }
      }
    }
  }

  lemma {:induction false} StripLeftKeepsWords(s: string)
    ensures Words(StripLeft(s)) == Words(s)
  {
    if s == "" || s[0] != '_' {
    } else {
      StripLeftKeepsWords(s[1..]);
    }
  }

  lemma {:induction false} StripLeftStart(s: string)
    ensures StripLeft(s) != "" ==> StripLeft(s)[0] != '_'
    ensures forall c :: c in StripLeft(s) ==> c in s
  {
    if s == "" || s[0] != '_' {
    } else {
      StripLeftStart(s[1..]);
    }
  }

  lemma {:induction false} FinalUnderscoreEndsNoWord(s: string, word: string)
    ensures WordsFrom(s + "_", word) == WordsFrom(s, word)
  {
    var t := s + "_";
    if s == "" {
      assert t[1..] == "";
    } else {
      assert t[0] == s[0] && t[1..] == s[1..] + "_";
      FinalUnderscoreEndsNoWord(s[1..], if IsAlnum(s[0]) then word + [s[0]] else "");
    }
  }

  lemma {:induction false} StripRightKeepsWords(s: string)
    ensures Words(StripRight(s)) == Words(s)
  {
    if s == "" || s[|s| - 1] != '_' {
    } else {
      var front := s[..|s| - 1];
      StripRightKeepsWords(front);
      assert s == front + "_";
      FinalUnderscoreEndsNoWord(front, "");
    }
  }

  lemma {:induction false} StripRightEnd(s: string)
    ensures StripRight(s) <= s && (StripRight(s) != "" ==> StripRight(s)[|StripRight(s)| - 1] != '_')
  {
    if s == "" || s[|s| - 1] != '_' {
    } else {
      StripRightEnd(s[..|s| - 1]);
    }
  }

  lemma {:induction false} SqueezeKeepsWords(s: string, word: string)
    ensures WordsFrom(Squeeze(s), word) == WordsFrom(s, word)
  {
    if |s| < 2 {
    } else {
      if s[0] == '_' && s[1] == '_' {
        SqueezeKeepsWords(s[1..], word);
        assert WordsFrom(s[1..], word) == Run(word) + WordsFrom(s[1..][1..], "");
      } else {
        SqueezeKeepsWords(s[1..], if IsAlnum(s[0]) then word + [s[0]] else "");
        assert Squeeze(s)[0] == s[0] && Squeeze(s)[1..] == Squeeze(s[1..]);
      }
    }
  }

  lemma {:induction false} SqueezeEnds(s: string)
    ensures s == "" ==> Squeeze(s) == ""
    ensures s != "" ==> Squeeze(s) != "" && Squeeze(s)[0] == s[0] && Squeeze(s)[|Squeeze(s)| - 1] == s[|s| - 1]
    ensures IsNameText(s) ==> IsNameText(Squeeze(s))
  {
    if |s| < 2 {
    } else {
      SqueezeEnds(s[1..]);
    }
  }

  lemma NoDoubleCons(c: char, s: string)
    requires NoDouble(s) && (s != "" ==> !(c == '_' && s[0] == '_'))
    ensures NoDouble([c] + s)
  {
    var t := [c] + s;
    forall i | 0 <= i < |t|
      ensures !DoubleAt(t, i)
    {
      if 1 <= i < |t| - 1 {
        assert !DoubleAt(s, i - 1);
      }
    }
  }

  lemma {:induction false} SqueezeHasNoDouble(s: string)
    ensures NoDouble(Squeeze(s))
  {
    if |s| < 2 {
    } else {
      SqueezeHasNoDouble(s[1..]);
      SqueezeEnds(s[1..]);
      if !(s[0] == '_' && s[1] == '_') {
        NoDoubleCons(s[0], Squeeze(s[1..]));
      }
    }
  }

  lemma NoDoubleTail(s: string)
    requires s != "" && NoDouble(s)
    ensures NoDouble(s[1..])
  {
    var t := s[1..];
    forall i | 0 <= i < |t|
      ensures !DoubleAt(t, i)
    {
      assert !DoubleAt(s, i + 1);
    }
  }

  lemma NoDoubleFront(s: string)
    requires s != "" && NoDouble(s)
    ensures NoDouble(s[..|s| - 1])
  {
    var t := s[..|s| - 1];
    forall i | 0 <= i < |t|
      ensures !DoubleAt(t, i)
    {
      assert !DoubleAt(s, i);
    }
  }

  lemma {:induction false} SqueezeUnchanged(s: string)
    requires NoDouble(s)
    ensures Squeeze(s) == s
  {
    if |s| < 2 {
    } else {
      assert !DoubleAt(s, 0);
      NoDoubleTail(s);
      SqueezeUnchanged(s[1..]);
      assert s == [s[0]] + s[1..];
    }
  }

  /** Cleaning keeps the words; what is left of the rest is single inner underscores. */
  lemma CleanedFacts(lowered: string)
    ensures Words(Cleaned(lowered)) == Words(lowered)
    ensures IsNameText(Cleaned(lowered)) && NoDouble(Cleaned(lowered))
    ensures Cleaned(lowered) != "" ==> Cleaned(lowered)[0] != '_' && Cleaned(lowered)[|Cleaned(lowered)| - 1] != '_'
  {
    var s := Substitute(lowered, false);
    SubstituteKeepsWords(lowered, false, "");
    StripLeftKeepsWords(s);
    StripLeftStart(s);
    StripRightKeepsWords(StripLeft(s));
    StripRightEnd(StripLeft(s));
    var t := StripRight(StripLeft(s));
    SqueezeKeepsWords(t, "");
    SqueezeEnds(t);
    SqueezeHasNoDouble(t);
  }

  lemma JoinStart(word: string, rest: seq<string>)
    requires rest != []
    ensures Join([word] + rest) == word + "_" + Join(rest)
  {
    assert ([word] + rest)[1..] == rest;
  }

  predicate Tidy(t: string) {
    IsNameText(t) && NoDouble(t) && (t != "" ==> t[|t| - 1] != '_')
  }

  lemma TailIsTidy(t: string)
    requires t != "" && Tidy(t)
    ensures Tidy(t[1..]) && (t[0] == '_' ==> t[1..] != "" && t[1..][0] != '_')
    ensures IsAlnum(t[0]) || t[0] == '_'
  {
    NoDoubleTail(t);
    assert !DoubleAt(t, 0);
    assert t[0] in t && forall c :: c in t[1..] ==> c in t;
  }

  lemma {:induction false} TidyTextIsJoin(t: string, word: string)
    requires Tidy(t) && (t != "" && word == "" ==> t[0] != '_')
    ensures Join(WordsFrom(t, word)) == word + t
  {
    if t != "" {
      var u := t[1..];
      TailIsTidy(t);
      if IsAlnum(t[0]) {
        TidyTextIsJoin(u, word + [t[0]]);
        assert word + [t[0]] + u == word + t;
      } else {
        TidyTextIsJoin(u, "");
        JoinStart(word, WordsFrom(u, ""));
        assert word + "_" + u == word + t;
      }
    }
  }

  /** The cleaned text is exactly the words of the lowered name joined by underscores. */
  lemma CleanedIsJoinedWords(lowered: string)
    ensures Cleaned(lowered) == Join(Words(lowered))
  {
    CleanedFacts(lowered);
    TidyTextIsJoin(Cleaned(lowered), "");
  }

  // ---------------------------------------------------------------- which usernames share an account

  predicate IsWord(w: string) {
    w != "" && forall i :: 0 <= i < |w| ==> IsAlnum(w[i])
  }

  predicate AreWords(words: seq<string>) {
    forall i :: 0 <= i < |words| ==> IsWord(words[i])
  }

  lemma {:induction false} WordsAreWords(s: string, word: string)
    requires word == "" || IsWord(word)
    ensures AreWords(WordsFrom(s, word))
  {
    if s == "" {
    } else if IsAlnum(s[0]) {
      WordsAreWords(s[1..], word + [s[0]]);
    } else {
      WordsAreWords(s[1..], "");
    }
  }

  /** The words of the account name before truncation: the prefix word is added unless it is there already. */
  function Normal(words: seq<string>): seq<string> {
    if words == [] then ["pam", "user"]
    else if words[0] == "pam" && |words| > 1 then words
    else ["pam"] + words
  }

  lemma JoinPrefix(words: seq<string>)
    requires AreWords(words) && words != []
    ensures Join(words) != "" && ("pam_" <= Join(words) <==> words[0] == "pam" && |words| > 1)
  {
    var w, j := words[0], Join(words);
    assert IsWord(w);
    if |words| > 1 {
      assert j == w + "_" + Join(words[1..]);
      assert j[|w|] == '_';
    }
    assert forall i :: 0 <= i < |w| ==> j[i] == w[i];
    if "pam_" <= j {
      assert j[0] == "pam_"[0] && j[1] == "pam_"[1] && j[2] == "pam_"[2] && j[3] == "pam_"[3];
      assert |w| == 3 && w == "pam";
    }
  }

  lemma JoinWithPrefix(words: seq<string>)
    requires words != []
    ensures Join(["pam"] + words) == "pam_" + Join(words)
  {
    assert (["pam"] + words)[1..] == words;
  }

  lemma PrefixedIsJoin(lowered: string)
    ensures Prefixed(lowered) == Join(Normal(Words(lowered)))
  {
    var words := Words(lowered);
    CleanedIsJoinedWords(lowered);
    WordsAreWords(lowered, "");
    if words == [] {
      JoinWithPrefix(["user"]);
      assert ["pam"] + ["user"] == ["pam", "user"];
    } else {
      JoinPrefix(words);
      JoinWithPrefix(words);
    }
  }

  function Clipped(s: string): string {
    if |s| > LIMIT then s[..LIMIT] else s
  }

  /** Two usernames share one Linux account exactly when their normal word lists agree on the first 32 characters. */
  lemma ShareAccountIff(lower: string -> string, a: string, b: string)
    ensures Sanitize(lower, a) == Sanitize(lower, b)
            <==> Clipped(Join(Normal(Words(lower(a))))) == Clipped(Join(Normal(Words(lower(b)))))
    ensures Sanitize(lower, a) == Clipped(Join(Normal(Words(lower(a)))))
  {
    PrefixedIsJoin(lower(a));
    PrefixedIsJoin(lower(b));
  }

  lemma {:induction false} WordsFromRun(w: string, s: string, word: string)
    requires forall i :: 0 <= i < |w| ==> IsAlnum(w[i])
    ensures WordsFrom(w + s, word) == WordsFrom(s, word + w)
  {
    if w == "" {
      assert w + s == s && word + w == word;
    } else {
      assert (w + s)[1..] == w[1..] + s;
      WordsFromRun(w[1..], s, word + [w[0]]);
      assert word + [w[0]] + w[1..] == word + w;
    }
  }

  /** Joining words loses nothing: splitting gives them back. */
  lemma {:induction false} WordsOfJoin(words: seq<string>)
    requires AreWords(words)
    ensures Words(Join(words)) == words
  {
    if words == [] {
    } else {
      var w := words[0];
      assert IsWord(w);
      if |words| == 1 {
        assert w + "" == w && "" + w == w;
        WordsFromRun(w, "", "");
      } else {
        var rest := "_" + Join(words[1..]);
        assert Join(words) == w + rest && rest[1..] == Join(words[1..]) && "" + w == w;
        WordsFromRun(w, rest, "");
        WordsOfJoin(words[1..]);
        assert words == [w] + words[1..];
      }
    }
  }

  lemma NormalAreWords(words: seq<string>)
    requires AreWords(words)
    ensures AreWords(Normal(words))
  {
    assert IsWord("pam") && IsWord("user");
  }

  /** When neither name is truncated, this is equality of the normal word lists. */
  lemma ShareUntruncatedIff(lower: string -> string, a: string, b: string)
    requires |Prefixed(lower(a))| <= LIMIT && |Prefixed(lower(b))| <= LIMIT
    ensures Sanitize(lower, a) == Sanitize(lower, b) <==> Normal(Words(lower(a))) == Normal(Words(lower(b)))
  {
    PrefixedIsJoin(lower(a));
    PrefixedIsJoin(lower(b));
    WordsAreWords(lower(a), "");
    WordsAreWords(lower(b), "");
    NormalAreWords(Words(lower(a)));
    NormalAreWords(Words(lower(b)));
    WordsOfJoin(Normal(Words(lower(a))));
    WordsOfJoin(Normal(Words(lower(b))));
  }

  /** For instance, a user `bob` and a user `pam_bob`. */
  lemma BobSharesWithPamBob(lower: string -> string)
    requires FixesNames(lower)
    ensures Sanitize(lower, "bob") == Sanitize(lower, "pam_bob")
  {
    assert IsNameText("bob") && IsNameText("pam_bob");
    assert IsWord("bob") && IsWord("pam");
    JoinWithPrefix(["bob"]);
    assert ["pam"] + ["bob"] == ["pam", "bob"];
    WordsOfJoin(["bob"]);
    WordsOfJoin(["pam", "bob"]);
    assert Join(["pam", "bob"]) == "pam_bob";
    ShareAccountIff(lower, "bob", "pam_bob");
  }

  lemma PrefixKeepsTidy(cleaned: string)
    requires cleaned != "" && IsNameText(cleaned) && NoDouble(cleaned) && cleaned[0] != '_'
    ensures IsNameText("pam_" + cleaned) && NoDouble("pam_" + cleaned)
    ensures var p := "pam_" + cleaned; p[|p| - 1] == cleaned[|cleaned| - 1]
  {
    var p := "pam_" + cleaned;
    NoDoubleCons('_', cleaned);
    NoDoubleCons('m', ['_'] + cleaned);
    NoDoubleCons('a', ['m'] + (['_'] + cleaned));
    NoDoubleCons('p', ['a'] + (['m'] + (['_'] + cleaned)));
    assert p == ['p'] + (['a'] + (['m'] + (['_'] + cleaned)));
    forall c | c in p
      ensures IsNameChar(c)
    {
    }
  }

  lemma CleanedOrUser(lowered: string, cleaned: string)
    requires cleaned == if Cleaned(lowered) == "" then "user" else Cleaned(lowered)
    ensures cleaned != "" && IsNameText(cleaned) && NoDouble(cleaned)
    ensures cleaned[0] != '_' && cleaned[|cleaned| - 1] != '_'
  {
    CleanedFacts(lowered);
  }

  lemma PrefixedFacts(lowered: string)
    ensures var p := Prefixed(lowered); |p| >= 5 && "pam_" <= p && IsNameText(p) && NoDouble(p) && p[|p| - 1] != '_'
  {
    var cleaned := if Cleaned(lowered) == "" then "user" else Cleaned(lowered);
    CleanedOrUser(lowered, cleaned);
    if "pam_" <= cleaned {
      assert cleaned[3] == "pam_"[3];
    } else {
      PrefixKeepsTidy(cleaned);
    }
  }

  /** For every application username the result is a valid account name with the prefix and no double underscore, so
      the validity check before a grant never fails. */
  lemma SanitizedIsValid(lower: string -> string, username: string)
    ensures var name := Sanitize(lower, username); IsLinuxName(name) && |name| >= 5 && "pam_" <= name && NoDouble(name)
    ensures var name := Sanitize(lower, username); name[|name| - 1] == '_' ==>
              |name| == LIMIT && |Prefixed(lower(username))| > LIMIT
  {
    PrefixedFacts(lower(username));
    var p := Prefixed(lower(username));
    if |p| > LIMIT {
      assert "pam_" <= p[..LIMIT];
      forall i | 0 <= i < LIMIT
        ensures !DoubleAt(p[..LIMIT], i)
      {
        assert !DoubleAt(p, i);
      }
    }
  }

  lemma {:induction false} NameTextUnchanged(s: string, inRun: bool)
    requires IsNameText(s)
    ensures Substitute(s, inRun) == s
  {
    if s == "" {
    } else {
      assert s[0] in s;
      NameTextUnchanged(s[1..], false);
      assert s == [s[0]] + s[1..];
    }
  }

  /** Cleaning an account name only drops a final underscore. */
  lemma CleanedName(name: string)
    requires |name| >= 2 && IsNameText(name) && NoDouble(name) && name[0] != '_'
    ensures Cleaned(name) == if name[|name| - 1] == '_' then name[..|name| - 1] else name
  {
    NameTextUnchanged(name, false);
    var n := |name| - 1;
    if name[n] == '_' {
      var shorter := name[..n];
      assert !DoubleAt(name, n - 1);
      assert StripRight(name) == StripRight(shorter) == shorter;
      NoDoubleFront(name);
      SqueezeUnchanged(shorter);
    } else {
      SqueezeUnchanged(name);
    }
  }

  /** Sanitizing again changes the name exactly when truncation left a final underscore, and then drops just that. */
  lemma SanitizeAgain(lower: string -> string, username: string)
    requires FixesNames(lower)
    ensures
      var name := Sanitize(lower, username);
      Sanitize(lower, name) == if name[|name| - 1] == '_' then name[..|name| - 1] else name
  {
    SanitizedIsValid(lower, username);
    var name := Sanitize(lower, username);
    assert lower(name) == name;
    assert name[0] == "pam_"[0];
    CleanedName(name);
    if name[|name| - 1] == '_' {
      assert "pam_" <= name[..|name| - 1];
    }
  }

  /** A third time changes nothing. */
  lemma SanitizeTwiceIsStable(lower: string -> string, username: string)
    requires FixesNames(lower)
    ensures var twice := Sanitize(lower, Sanitize(lower, username)); Sanitize(lower, twice) == twice
  {
    SanitizedIsValid(lower, username);
    SanitizeAgain(lower, username);
    SanitizeAgain(lower, Sanitize(lower, username));
    SanitizedIsValid(lower, Sanitize(lower, username));
  }

  // ---------------------------------------------------------------- printing and parsing a gateway login

  function Decimal(n: nat): (s: string)
    ensures s != "" && forall c :: c in s ==> IsDigit(c)
  {
    if n < 10 then ['0' + n as char] else Decimal(n / 10) + ['0' + (n % 10) as char]
  }

  function Digit(c: char): nat {
    if IsDigit(c) then c as int - '0' as int else 0
  }

  function Number(digits: string): nat {
    if digits == "" then 0 else 10 * Number(digits[..|digits| - 1]) + Digit(digits[|digits| - 1])
  }

  /** Reading is positional, base ten. */
  lemma NumberIsPositional(digits: string, last: char)
    requires last in DIGITS
    ensures Number(digits + [last]) == 10 * Number(digits) + (last as int - '0' as int)
  {
    DigitsAre(last);
    assert (digits + [last])[..|digits|] == digits;
  }

  lemma {:induction false} NumberOfDecimal(n: nat)
    ensures Number(Decimal(n)) == n
  {
    var s := Decimal(n);
    if n >= 10 {
      NumberOfDecimal(n / 10);
      assert s[..|s| - 1] == Decimal(n / 10);
    } else {
      assert s[..|s| - 1] == "";
    }
  }

  datatype Login = Login(username: string, server: Option<nat>)

  predicate IsHead(c: char) { 'a' <= c <= 'z' || c == '_' }

  predicate IsTail(c: char) { IsNameChar(c) || c == '-' }

  /** The name part of the login pattern: up to 64 characters. */
  predicate IsLoginName(s: string) {
    1 <= |s| <= 64 && IsHead(s[0]) && forall i :: 1 <= i < |s| ==> IsTail(s[i])
  }

  /** A login name: a letter or an underscore, then up to 63 letters, digits, underscores or hyphens. */
  lemma LoginNameIff(head: char, tail: string)
    ensures IsLoginName([head] + tail) <==>
      && |tail| <= 63 && (head in LETTERS || head == '_')
      && forall c :: c in tail ==> c in LETTERS || c in DIGITS || c == '_' || c == '-'
  {
    var s := [head] + tail;
    ClassesAre(head);
    forall c
      ensures IsTail(c) <==> c in LETTERS || c in DIGITS || c == '_' || c == '-'
    {
      ClassesAre(c);
    }
    assert forall c :: c in tail ==> exists i :: 1 <= i < |s| && s[i] == c by {
      forall c | c in tail
        ensures exists i :: 1 <= i < |s| && s[i] == c
      {
        var k :| 0 <= k < |tail| && tail[k] == c;
        assert s[k + 1] == c;
      }
    }
  }

  predicate AllDigits(s: string) {
    s != "" && forall c | c in s :: IsDigit(c)
  }

  /** Position of the first occurrence of `c`, or the length. */
  function Find(s: string, c: char): (i: nat)
    ensures i <= |s| && (i < |s| ==> s[i] == c)
    ensures forall k :: 0 <= k < i ==> s[k] != c
    ensures c in s <==> i < |s|
  {
    if s == "" then 0
    else if s[0] == c then 0
    else
      assert forall k :: 1 <= k < |s| ==> s[k] == s[1..][k - 1];
      1 + Find(s[1..], c)
  }

  /** The pattern's end anchor also accepts one final newline. */
  function WithoutNewline(s: string): string {
    if s != "" && s[|s| - 1] == '\n' then s[..|s| - 1] else s
  }

  predicate MatchesPattern(s: string) {
    var i := Find(s, '+');
    IsLoginName(s[..i]) && (i < |s| ==> AllDigits(s[i + 1..]))
  }

  /** None is the raised value error.  The bare form returns the text as it came; reading the number drops the
      newline. */
  function ParseLogin(value: string): Option<Login> {
    var body := WithoutNewline(value);
    var i := Find(body, '+');
    if !MatchesPattern(body) then None
    else if i == |body| then Some(Login(value, None))
    else Some(Login(body[..i], Some(Number(body[i + 1..]))))
  }

  function ConnectionString(name: string, server: nat, host: string, port: nat): string {
    "ssh " + name + "+" + Decimal(server) + "@" + host + " -p " + Decimal(port)
  }

  /** What an SSH client sends as the user of such a command: the text up to the first `@`. */
  function LoginPart(command: string): string {
    if |command| < 4 then "" else command[4..][..Find(command[4..], '@')]
  }

  lemma FindAt(a: string, c: char, b: string)
    requires c !in a
    ensures Find(a + [c] + b, c) == |a|
  {
    var s := a + [c] + b;
    assert s[|a|] == c;
    forall k | 0 <= k < |a|
      ensures s[k] != c
    {
      assert s[k] == a[k] && a[k] in a;
    }
  }

  /** Parsing what was printed for a name and a server gives both back, for every valid login name. */
  lemma ParsePrinted(name: string, server: nat)
    requires IsLoginName(name)
    ensures ParseLogin(name + "+" + Decimal(server)) == Some(Login(name, Some(server)))
  {
    var digits := Decimal(server);
    var value := name + "+" + digits;
    assert '+' !in name by {
      forall i | 0 <= i < |name|
        ensures name[i] != '+'
      {
        if i >= 1 { assert IsTail(name[i]); }
      }
    }
    FindAt(name, '+', digits);
    assert value == name + ['+'] + digits;
    assert value[..|name|] == name && value[|name| + 1..] == digits;
    assert value[|value| - 1] == digits[|digits| - 1] && digits[|digits| - 1] in digits;
    assert WithoutNewline(value) == value && WithoutNewline(digits) == digits;
    NumberOfDecimal(server);
  }

  lemma LinuxNameIsLoginName(lower: string -> string, username: string)
    ensures IsLoginName(Sanitize(lower, username))
  {
    SanitizedIsValid(lower, username);
    var name := Sanitize(lower, username);
    assert name[0] == "pam_"[0];
    forall i | 1 <= i < |name|
      ensures IsTail(name[i])
    {
      assert name[i] in name;
    }
  }

  lemma LoginHasNoAt(name: string, server: nat)
    requires IsLoginName(name)
    ensures '@' !in name + "+" + Decimal(server)
  {
    forall i | 0 <= i < |name|
      ensures name[i] != '@'
    {
      if i >= 1 { assert IsTail(name[i]); }
    }
    assert '@' !in Decimal(server);
  }

  lemma ConnectionShape(name: string, server: nat, host: string, port: nat)
    ensures ConnectionString(name, server, host, port)
            == "ssh " + (name + "+" + Decimal(server)) + "@" + (host + " -p " + Decimal(port))
  {
  }

  lemma LoginOfCommand(login: string, rest: string)
    requires '@' !in login
    ensures LoginPart("ssh " + login + "@" + rest) == login
  {
    var command := "ssh " + login + "@" + rest;
    assert command[4..] == login + ['@'] + rest;
    FindAt(login, '@', rest);
    assert (login + ['@'] + rest)[..|login|] == login;
  }

  /** The round trip: the login of the connection string printed for a grant parses to the grant's name and server. */
  lemma ConnectionRoundTrip(lower: string -> string, username: string, server: nat, host: string, port: nat)
    ensures
      var name := Sanitize(lower, username);
      ParseLogin(LoginPart(ConnectionString(name, server, host, port))) == Some(Login(name, Some(server)))
  {
    LinuxNameIsLoginName(lower, username);
    var name := Sanitize(lower, username);
    var login := name + "+" + Decimal(server);
    var rest := host + " -p " + Decimal(port);
    LoginHasNoAt(name, server);
    ConnectionShape(name, server, host, port);
    LoginOfCommand(login, rest);
    ParsePrinted(name, server);
  }

  /** What the parser accepts: a login name, optionally `+` and digits, optionally one newline at the very end. */
  ghost predicate InLanguage(value: string) {
    exists name: string, suffix: string, end: string :: IsSplit(value, name, suffix, end)
  }

  predicate IsSplit(value: string, name: string, suffix: string, end: string) {
    && value == name + suffix + end && IsLoginName(name)
    && (suffix == "" || (suffix[0] == '+' && AllDigits(suffix[1..])))
    && end in {"", "\n"}
  }

  lemma NameHasNoPlus(name: string)
    requires IsLoginName(name)
    ensures '+' !in name && name[|name| - 1] != '\n'
  {
    forall i | 0 <= i < |name|
      ensures name[i] != '+' && name[i] != '\n'
    {
      if i >= 1 { assert IsTail(name[i]); }
    }
  }

  lemma PatternSplits(body: string)
    requires MatchesPattern(body)
    ensures var i := Find(body, '+');
      body == body[..i] + body[i..] && (body[i..] == "" || (body[i..][0] == '+' && AllDigits(body[i..][1..])))
  {
    var i := Find(body, '+');
    if i < |body| {
      var suffix := body[i..];
      assert suffix[0] == '+' && suffix[1..] == body[i + 1..];
    }
  }

  lemma NewlineSplits(value: string)
    ensures value == WithoutNewline(value) + if WithoutNewline(value) == value then "" else "\n"
  {
  }

  lemma SplitIsInLanguage(value: string, name: string, suffix: string, end: string)
    requires IsSplit(value, name, suffix, end)
    ensures InLanguage(value)
  {
  }

  lemma AcceptedIsInLanguage(value: string)
    requires ParseLogin(value).Some?
    ensures InLanguage(value)
  {
    var body := WithoutNewline(value);
    PatternSplits(body);
    NewlineSplits(value);
    var i := Find(body, '+');
    var name, suffix := body[..i], body[i..];
    var end := if body == value then "" else "\n";
    assert name + suffix == body;
    assert IsLoginName(name);
    SplitIsInLanguage(value, name, suffix, end);
  }

  lemma LanguageIsAccepted(value: string, name: string, suffix: string, end: string)
    requires IsSplit(value, name, suffix, end)
    ensures ParseLogin(value).Some?
  {
    var body := name + suffix;
    NameHasNoPlus(name);
    assert body[|body| - 1] != '\n' by {
      if suffix != "" {
        assert body[|body| - 1] == suffix[1..][|suffix| - 2];
        assert body[|body| - 1] in suffix[1..];
      }
    }
    if end == "\n" {
      assert value[|value| - 1] == '\n' && value[..|value| - 1] == body;
    } else {
      assert value == body;
    }
    assert WithoutNewline(value) == body;
    if suffix == "" {
      assert body == name && Find(body, '+') == |name|;
      assert body[..|name|] == name;
    } else {
      assert body == name + ['+'] + suffix[1..];
      FindAt(name, '+', suffix[1..]);
      assert body[..|name|] == name && body[|name| + 1..] == suffix[1..];
    }
  }

  /** The accepted logins are exactly this language. */
  lemma ParserAcceptsExactly(value: string)
    ensures ParseLogin(value).Some? <==> InLanguage(value)
  {
    if ParseLogin(value).Some? {
      AcceptedIsInLanguage(value);
    }
    if InLanguage(value) {
      var name: string, suffix: string, end: string :| IsSplit(value, name, suffix, end);
      LanguageIsAccepted(value, name, suffix, end);
    }
  }

  /** Without a server part the newline survives into the parsed name; with one it is lost with the number. */
  lemma NewlineInBareLogin(name: string)
    requires IsLoginName(name)
    ensures ParseLogin(name + "\n") == Some(Login(name + "\n", None)) && !IsLoginName(name + "\n")
  {
    var value := name + "\n";
    assert IsSplit(value, name, "", "\n");
    LanguageIsAccepted(value, name, "", "\n");
    NameHasNoPlus(name);
    assert '+' !in value;
    assert value[|name|] == '\n' && !IsTail(value[|name|]);
  }
}
