// The X-Gitlab-Event header: how the adapter reads a type out of it, and how
// the end-to-end tests build one. Letters are ASCII.
module EventHeaders {

  function UpperChar(c: char): char {
    if 'a' <= c <= 'z' then c - 'a' + 'A' else c
  }

  function LowerChar(c: char): char {
    if 'A' <= c <= 'Z' then c - 'A' + 'a' else c
  }

  function ToLower(s: string): (r: string)
    ensures |r| == |s| && forall i :: 0 <= i < |s| ==> r[i] == LowerChar(s[i])
  {
    if s == "" then "" else [LowerChar(s[0])] + ToLower(s[1..])
  }

  // strings.ReplaceAll of one character.
  function Replace(s: string, old': char, new': char): (r: string)
    ensures |r| == |s| && forall i :: 0 <= i < |s| ==> r[i] == if s[i] == old' then new' else s[i]
  {
    if s == "" then "" else [if s[0] == old' then new' else s[0]] + Replace(s[1..], old', new')
  }

  predicate HasSuffix(s: string, suffix: string) {
    |s| >= |suffix| && s[|s| - |suffix|..] == suffix
  }

  // gitlabEventHeaderToEventType.
  function TypeOfHeader(header: string): string {
    if !HasSuffix(header, " Hook") then ""
    else ToLower(Replace(header[..|header| - 5], ' ', '_'))
  }

  // ---- getGitLabEventType of the end-to-end tests ----

  // strings.Split on one character.
  function Split(s: string, sep: char): (parts: seq<string>)
    ensures parts != []
  {
    if s == "" then [""]
    else
      var rest := Split(s[1..], sep);
      if s[0] == sep then [""] + rest else [[s[0]] + rest[0]] + rest[1..]
  }

  // strings.Join.
  function Join(parts: seq<string>, sep: string): string {
    if parts == [] then "" else if |parts| == 1 then parts[0] else parts[0] + sep + Join(parts[1..], sep)
  }

  predicate Alphanumeric(c: char) {
    'a' <= c <= 'z' || 'A' <= c <= 'Z' || '0' <= c <= '9' || c == '_'
  }

  // strings.Title: a letter after a separator becomes upper case.
  function TitleAfter(previous: char, s: string): string
    decreases s
  {
    if s == "" then ""
    else [if Alphanumeric(previous) then s[0] else UpperChar(s[0])] + TitleAfter(s[0], s[1..])
  }

  function Titles(parts: seq<string>): seq<string> {
    if parts == [] then [] else [TitleAfter(' ', parts[0])] + Titles(parts[1..])
  }

  function HeaderFor(webhookType: string): string {
    Join(Titles(Split(webhookType, '-')), " ")
  }

  // ---- The round trip ----

  // Lower-case letters, digits and dashes.
  predicate Plain(s: string) {
    forall i :: 0 <= i < |s| ==> 'a' <= s[i] <= 'z' || '0' <= s[i] <= '9' || s[i] == '-'
  }

  // The header, character by character.
  function Capitalized(s: string, start: bool): (r: string)
    ensures |r| == |s|
  {
    if s == "" then ""
    else [if s[0] == '-' then ' ' else if start then UpperChar(s[0]) else s[0]] + Capitalized(s[1..], s[0] == '-')
  }

  // Titles and joins parts, leaving the first alone unless it starts a word.
  function Joined(parts: seq<string>, start: bool): string
    requires parts != []
  {
    (if start then TitleAfter(' ', parts[0]) else parts[0])
      + (if |parts| == 1 then "" else " " + Joined(parts[1..], true))
  }

  lemma {:induction false} JoinedTitles(parts: seq<string>)
    requires parts != []
    ensures Join(Titles(parts), " ") == Joined(parts, true)
  {
    if |parts| > 1 {
      JoinedTitles(parts[1..]);
      assert Titles(parts)[1..] == Titles(parts[1..]);
      assert |Titles(parts)| > 1;
    }
  }

  predicate Word(s: string) {
    forall i :: 0 <= i < |s| ==> Alphanumeric(s[i])
  }

  lemma {:induction false} TitleInside(previous: char, s: string)
    requires Alphanumeric(previous) && Word(s)
    ensures TitleAfter(previous, s) == s
    decreases s
  {
    if s != "" { TitleInside(s[0], s[1..]); }
  }

  lemma {:induction false} SplitPlain(s: string)
    requires Plain(s)
    ensures Word(Split(s, '-')[0])
  {
    if s != "" { SplitPlain(s[1..]); }
  }

  // A dash starts a new part.
  lemma JoinedDash(s: string, start: bool)
    requires s != "" && s[0] == '-'
    requires Joined(Split(s[1..], '-'), true) == Capitalized(s[1..], true)
    ensures Joined(Split(s, '-'), start) == Capitalized(s, start)
  {
    assert Split(s, '-')[1..] == Split(s[1..], '-');
  }

  // Any other character belongs to the first part.
  lemma JoinedLetter(s: string, parts: seq<string>, start: bool)
    requires s != "" && Alphanumeric(s[0]) && s[0] != '-' && parts == Split(s[1..], '-') && Word(parts[0])
    requires Joined(parts, false) == Capitalized(s[1..], false)
    ensures Joined(Split(s, '-'), start) == Capitalized(s, start)
  {
    hide Word, UpperChar, Alphanumeric, Plain, Joined, TitleAfter;
    TitleInside(s[0], parts[0]);
    TitleFirst(s[0], parts[0]);
    assert Split(s, '-') == [[s[0]] + parts[0]] + parts[1..];
    JoinedPrefixed(s[0], parts, start);
  }

  // One more character in front of the first part.
  lemma JoinedPrefixed(c: char, parts: seq<string>, start: bool)
    requires parts != [] && TitleAfter(' ', [c] + parts[0]) == [UpperChar(c)] + parts[0]
    ensures Joined([[c] + parts[0]] + parts[1..], start) == [if start then UpperChar(c) else c] + Joined(parts, false)
  {
    hide TitleAfter, UpperChar;
    var more := [[c] + parts[0]] + parts[1..];
    assert more[1..] == parts[1..];
  }

  lemma TitleFirst(c: char, s: string)
    ensures TitleAfter(' ', [c] + s) == [UpperChar(c)] + TitleAfter(c, s)
  {
    assert ([c] + s)[1..] == s;
  }

  lemma {:induction false} SplitJoined(s: string, start: bool)
    requires Plain(s)
    ensures Joined(Split(s, '-'), start) == Capitalized(s, start)
  {
    if s != "" {
      SplitJoined(s[1..], s[0] == '-');
      if s[0] == '-' {
        JoinedDash(s, start);
      } else {
        SplitPlain(s[1..]);
        JoinedLetter(s, Split(s[1..], '-'), start);
      }
    }
  }

  lemma {:induction false} CapitalizedAppend(s: string, t: string, start: bool)
    ensures Capitalized(s + t, start)
         == Capitalized(s, start) + Capitalized(t, if s == "" then start else s[|s| - 1] == '-')
  {
    if s == "" {
      assert s + t == t;
    } else {
      assert (s + t)[1..] == s[1..] + t;
      CapitalizedAppend(s[1..], t, s[0] == '-');
    }
  }

  lemma {:induction false} LowerCapitalized(s: string, start: bool, i: nat)
    requires Plain(s) && i < |s|
    ensures LowerChar(if Capitalized(s, start)[i] == ' ' then '_' else Capitalized(s, start)[i])
         == if s[i] == '-' then '_' else s[i]
  {
    if i > 0 { LowerCapitalized(s[1..], s[0] == '-', i - 1); }
  }

  lemma HookSuffix(start: bool)
    ensures Capitalized("-hook", start) == " Hook"
  {
    assert Capitalized("k", false) == "k";
    assert "ok"[1..] == "k" && "ook"[1..] == "ok" && "hook"[1..] == "ook" && "-hook"[1..] == "hook";
    assert Capitalized("ok", false) == "ok";
    assert Capitalized("ook", false) == "ook";
    assert Capitalized("hook", true) == "Hook";
  }

  lemma HeaderForm(t: string)
    requires t != "" && Plain(t)
    ensures HeaderFor(t + "-hook") == Capitalized(t, true) + " Hook"
  {
    JoinedTitles(Split(t + "-hook", '-'));
    SplitJoined(t + "-hook", true);
    CapitalizedAppend(t, "-hook", true);
    HookSuffix(t[|t| - 1] == '-');
  }

  // For one, "tag-push-hook".
  lemma HeaderOfTagPush()
    ensures HeaderFor("tag-push-hook") == "Tag Push Hook"
  {
    hide HeaderFor, Capitalized;
    HeaderForm("tag-push");
    CapitalizedAppend("tag", "-push", true);
    CapitalizedWord("tag");
    CapitalizedDash("push", false);
    CapitalizedWord("push");
    assert "tag-push" + "-hook" == "tag-push-hook" && "tag" + "-push" == "tag-push" && "-" + "push" == "-push";
    assert "Tag" + " Push" == "Tag Push" && "Tag Push" + " Hook" == "Tag Push Hook" && " " + "Push" == " Push";
    assert ['T'] + "tag"[1..] == "Tag" && ['P'] + "push"[1..] == "Push";
  }

  lemma CapitalizedDash(s: string, start: bool)
    ensures Capitalized("-" + s, start) == " " + Capitalized(s, true)
  {
    assert ("-" + s)[1..] == s;
  }

  lemma {:induction false} LowerWord(s: string)
    requires forall i :: 0 <= i < |s| ==> s[i] != '-'
    ensures Capitalized(s, false) == s
  {
    if s != "" { LowerWord(s[1..]); }
  }

  // A word's first letter goes to upper case, the rest stays.
  lemma CapitalizedWord(s: string)
    requires s != "" && forall i :: 0 <= i < |s| ==> s[i] != '-'
    ensures Capitalized(s, true) == [if 'a' <= s[0] <= 'z' then s[0] - 'a' + 'A' else s[0]] + s[1..]
  {
    LowerWord(s[1..]);
  }

  lemma SuffixTrimmed(h: string)
    ensures TypeOfHeader(h + " Hook") == ToLower(Replace(h, ' ', '_'))
  {
    assert (h + " Hook")[|h|..] == " Hook" && (h + " Hook")[..|h|] == h;
  }

  // The type the adapter reads from the header built for "t-hook" is the one
  // the tests expect: t with its dashes replaced.
  lemma RoundTrip(t: string)
    requires t != "" && Plain(t)
    ensures TypeOfHeader(HeaderFor(t + "-hook")) == Replace(t, '-', '_')
  {
    HeaderForm(t);
    SuffixTrimmed(Capitalized(t, true));
    forall i | 0 <= i < |t| ensures ToLower(Replace(Capitalized(t, true), ' ', '_'))[i] == Replace(t, '-', '_')[i] {
      LowerCapitalized(t, true, i);
    }
  }
}
