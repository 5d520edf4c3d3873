/**
  The sign-in page's identity derivation: the display name and the handle
  made up from the e-mail address, and the page to return to afterwards.
 */
module Login {
  import opened Wrappers

  // ---------------------------------------------------------------------------
  // String helpers with JavaScript's meaning
  // ---------------------------------------------------------------------------

  /** `s.split(sep)`: the pieces between the occurrences of `sep`; there is
      always at least one, and the first is the text before the first `sep`. */
  function Split(s: string, sep: char): (parts: seq<string>)
    ensures |parts| >= 1
    ensures forall k :: 0 <= k < |parts| ==> sep !in parts[k]
    ensures |parts[0]| <= |s| && parts[0] == s[..|parts[0]|]
    ensures |parts[0]| < |s| ==> s[|parts[0]|] == sep
  {
    if s == [] then [""]
    else
      var rest := Split(s[1..], sep);
      if s[0] == sep then [""] + rest
      else [[s[0]] + rest[0]] + rest[1..]
  }

  /** `parts.join(sep)`. */
  function Join(parts: seq<string>, sep: char): string {
    if |parts| == 0 then ""
    else if |parts| == 1 then parts[0]
    else parts[0] + [sep] + Join(parts[1..], sep)
  }

  lemma JoinConsFirst(c: char, w: string, ws: seq<string>, sep: char)
    ensures Join([[c] + w] + ws, sep) == [c] + Join([w] + ws, sep)
  {
  }

  /** Splitting and joining again on the same separator gives the text back. */
  lemma {:induction false} JoinSplit(s: string, sep: char)
    ensures Join(Split(s, sep), sep) == s
  {
    if s != [] {
      var rest := Split(s[1..], sep);
      JoinSplit(s[1..], sep);
      if s[0] == sep {
        assert ([""] + rest)[1..] == rest;
      } else {
        JoinConsFirst(s[0], rest[0], rest[1..], sep);
        assert [rest[0]] + rest[1..] == rest;
      }
    }
  }

  /** `toUpperCase` on one character, for the ASCII letters. */
  function Upper(c: char): (u: char)
    ensures 'a' <= c <= 'z' ==> 'A' <= u <= 'Z' && u as int == c as int - 32
    ensures !('a' <= c <= 'z') ==> u == c
  {
    if 'a' <= c <= 'z' then (c as int - 32) as char else c
  }

  /** `word.charAt(0).toUpperCase() + word.slice(1)`. */
  function CapitalizeWord(w: string): string {
    if w == "" then "" else [Upper(w[0])] + w[1..]
  }

  function CapitalizeAll(words: seq<string>): (r: seq<string>)
    ensures |r| == |words|
  {
    if words == [] then [] else [CapitalizeWord(words[0])] + CapitalizeAll(words[1..])
  }

  /** `.split(' ').map(capitalize).join(' ')`. */
  function Capitalize(s: string): string {
    Join(CapitalizeAll(Split(s, ' ')), ' ')
  }

  /** Position `i` starts a word: it is the first character or follows a space. */
  predicate WordStart(s: string, i: int)
    requires 0 <= i < |s|
  {
    i == 0 || s[i - 1] == ' '
  }

  // ---------------------------------------------------------------------------
  // Capitalisation, one character at a time
  // ---------------------------------------------------------------------------

  /** Capitalisation as a left-to-right scan; `atStart` says whether the
      first character starts a word. */
  function CapScan(s: string, atStart: bool): string {
    if s == [] then []
    else if s[0] == ' ' then [' '] + CapScan(s[1..], true)
    else [if atStart then Upper(s[0]) else s[0]] + CapScan(s[1..], false)
  }

  lemma {:induction false} CapScanAt(s: string, atStart: bool)
    ensures |CapScan(s, atStart)| == |s|
    ensures forall i :: 0 <= i < |s| ==>
      CapScan(s, atStart)[i]
        == if (i == 0 && atStart) || (i > 0 && s[i - 1] == ' ') then Upper(s[i]) else s[i]
  {
    if s != [] {
      var rest := CapScan(s[1..], s[0] == ' ');
      CapScanAt(s[1..], s[0] == ' ');
      assert CapScan(s, atStart)
          == [if s[0] == ' ' then ' ' else if atStart then Upper(s[0]) else s[0]] + rest;
      forall i | 0 <= i < |s|
        ensures CapScan(s, atStart)[i]
          == if (i == 0 && atStart) || (i > 0 && s[i - 1] == ' ') then Upper(s[i]) else s[i]
      {
        if i > 0 {
          assert CapScan(s, atStart)[i] == rest[i - 1];
          assert s[1..][i - 1] == s[i];
          assert i - 1 > 0 ==> s[1..][i - 2] == s[i - 1];
        }
      }
    }
  }

  /** The split / map / join chain, with the first word capitalised only when
      `atStart`, computes the scan. */
  lemma {:induction false} ChainIsScan(t: string, atStart: bool)
    ensures var ws := Split(t, ' ');
      Join([if atStart then CapitalizeWord(ws[0]) else ws[0]] + CapitalizeAll(ws[1..]), ' ')
        == CapScan(t, atStart)
  {
    if t != [] {
      var rest := Split(t[1..], ' ');
      var ws := Split(t, ' ');
      if t[0] == ' ' {
        ChainIsScan(t[1..], true);
        assert ws == [""] + rest && ws[1..] == rest;
        assert CapitalizeAll(rest) == [CapitalizeWord(rest[0])] + CapitalizeAll(rest[1..]);
        assert ([""] + CapitalizeAll(rest))[1..] == CapitalizeAll(rest);
      } else {
        ChainIsScan(t[1..], false);
        assert ws == [[t[0]] + rest[0]] + rest[1..] && ws[1..] == rest[1..];
        var x := if atStart then Upper(t[0]) else t[0];
        assert ([t[0]] + rest[0])[1..] == rest[0];
        assert (if atStart then CapitalizeWord(ws[0]) else ws[0]) == [x] + rest[0];
        JoinConsFirst(x, rest[0], CapitalizeAll(rest[1..]), ' ');
      }
    }
  }

  /** Capitalisation keeps the length and upper-cases exactly the characters
      that start a word; every other character is kept as it was. */
  lemma CapitalizeAt(s: string)
    ensures |Capitalize(s)| == |s|
    ensures forall i :: 0 <= i < |s| ==>
      Capitalize(s)[i] == if WordStart(s, i) then Upper(s[i]) else s[i]
  {
    var ws := Split(s, ' ');
    assert CapitalizeAll(ws) == [CapitalizeWord(ws[0])] + CapitalizeAll(ws[1..]);
    ChainIsScan(s, true);
    CapScanAt(s, true);
  }

  /** Capitalising a second time changes nothing. */
  lemma CapitalizeIdempotent(s: string)
    ensures Capitalize(Capitalize(s)) == Capitalize(s)
  {
    var c := Capitalize(s);
    CapitalizeAt(s);
    CapitalizeAt(c);
    forall i | 0 <= i < |c|
      ensures Capitalize(c)[i] == c[i]
    {
      assert WordStart(c, i) == WordStart(s, i);
    }
  }

  // ---------------------------------------------------------------------------
  // The derived identity
  // ---------------------------------------------------------------------------

  /** `email.split('@')[0]`: the text before the first '@' (all of it when
      there is none). */
  function LocalPart(email: string): (local: string)
    ensures '@' !in local
    ensures |local| <= |email| && local == email[..|local|]
    ensures |local| < |email| ==> email[|local|] == '@'
  {
    Split(email, '@')[0]
  }

  /** `.replace(/[._]/g, ' ')`: every '.' and '_' becomes a space. */
  function SpaceOut(s: string): (r: string)
    ensures |r| == |s|
    ensures forall i :: 0 <= i < |s| ==>
      r[i] == (if s[i] == '.' || s[i] == '_' then ' ' else s[i])
  {
    seq(|s|, i requires 0 <= i < |s| => if s[i] == '.' || s[i] == '_' then ' ' else s[i])
  }

  function DisplayName(email: string): string {
    Capitalize(SpaceOut(LocalPart(email)))
  }

  /** '@' followed by the text before the first '@'. */
  function Handle(email: string): (h: string)
    ensures |h| >= 1 && h[0] == '@' && h[1..] == LocalPart(email)
  {
    "@" + LocalPart(email)
  }

  datatype UserData = UserData(name: string, email: string, handle: string)

  /** The user record handed to the sign-in: the address as typed, with the
      name and handle made from it. */
  function MakeUser(email: string): (u: UserData)
    ensures u.email == email
    ensures u.name == DisplayName(email) && u.handle == Handle(email)
    ensures u.handle[1..] == LocalPart(email)
  {
    UserData(DisplayName(email), email, Handle(email))
  }

  /** The display name has the local part's length; separators become spaces,
      word-initial characters are upper-cased, and nothing else changes. It
      holds no '.', '_' or '@'. */
  lemma DisplayNameShape(email: string)
    ensures var local := LocalPart(email);
      var name := DisplayName(email);
      && |name| == |local|
      && (forall i :: 0 <= i < |local| ==>
           name[i] == (if local[i] == '.' || local[i] == '_' then ' '
                       else if WordStart(SpaceOut(local), i) then Upper(local[i])
                       else local[i]))
      && '.' !in name && '_' !in name && '@' !in name
  {
    var local := LocalPart(email);
    var spaced := SpaceOut(local);
    CapitalizeAt(spaced);
    var name := DisplayName(email);
    forall i | 0 <= i < |name|
      ensures name[i] != '.' && name[i] != '_' && name[i] != '@'
    {
      assert local[i] in local;
    }
  }

  /** Applying the capitalisation to a derived name gives the name back. */
  lemma DisplayNameIsCapitalized(email: string)
    ensures Capitalize(DisplayName(email)) == DisplayName(email)
  {
    CapitalizeIdempotent(SpaceOut(LocalPart(email)));
  }

  /** `location.state?.from?.pathname || "/home"`: the page that sent the user
      here, or the home page when there is none (an empty path counts as none). */
  function RedirectTarget(fromPath: Option<string>): (target: string)
    ensures fromPath.Some? && fromPath.value != "" ==> target == fromPath.value
    ensures fromPath.None? || fromPath.value == "" ==> target == "/home"
    ensures target != ""
  {
    if fromPath.Some? && fromPath.value != "" then fromPath.value else "/home"
  }
}
