/** The transcript aggregator's pure part: JavaScript's
    String.prototype.trim and the entries a completed turn appends to the
    history. */
module Transcript {
  import opened Types

  /** The code points String.prototype.trim strips: ECMAScript WhiteSpace
      (tab, vertical tab, form feed, space, no-break space, byte order mark
      and the Unicode space separators) and LineTerminator (LF, CR, LS, PS). */
  const Spaces: set<char> := {
    '\t', '\n', '\U{B}', '\U{C}', '\r', ' ', '\U{A0}', '\U{1680}',
    '\U{2000}', '\U{2001}', '\U{2002}', '\U{2003}', '\U{2004}', '\U{2005}',
    '\U{2006}', '\U{2007}', '\U{2008}', '\U{2009}', '\U{200A}',
    '\U{2028}', '\U{2029}', '\U{202F}', '\U{205F}', '\U{3000}', '\U{FEFF}'
  }

  predicate IsSpace(c: char) {
    c in Spaces
  }

  /** Every character of `s` is white space (JavaScript: `s.trim()` is falsy). */
  predicate AllSpace(s: string) {
    forall i | 0 <= i < |s| :: IsSpace(s[i])
  }

  /** `s` neither starts nor ends with white space. */
  predicate IsTrimmed(s: string) {
    s == [] || (!IsSpace(s[0]) && !IsSpace(s[|s| - 1]))
  }

  /** Length of the white-space prefix of `s`. */
  function Leading(s: string): (n: nat)
    ensures n <= |s|
    ensures AllSpace(s[..n])
    ensures n < |s| ==> !IsSpace(s[n])
  {
    if s != [] && IsSpace(s[0]) then
      var m := Leading(s[1..]);
      assert forall i | 1 <= i < 1 + m :: s[i] == s[1..][..m][i - 1];
      1 + m
    else 0
  }

  /** Length of the white-space suffix of `s`. */
  function Trailing(s: string): (n: nat)
    ensures n <= |s|
    ensures AllSpace(s[|s| - n..])
    ensures n < |s| ==> !IsSpace(s[|s| - 1 - n])
  {
    if s != [] && IsSpace(s[|s| - 1]) then
      var init := s[..|s| - 1];
      var m := Trailing(init);
      assert forall i | |s| - 1 - m <= i < |s| - 1 :: s[i] == init[|init| - m..][i - (|s| - 1 - m)];
      1 + m
    else 0
  }

  /** String.prototype.trim: `s` with its white-space prefix and suffix
      removed, and nothing else changed. */
  function Trim(s: string): (r: string)
    ensures IsTrimmed(r)
    ensures r == [] <==> AllSpace(s)
    ensures Leading(s) + |r| <= |s| && r == s[Leading(s)..Leading(s) + |r|]
    ensures AllSpace(s[Leading(s) + |r|..])
  {
    var lead := Leading(s);
    var tail := Trailing(s[lead..]);
    TrimSlice(s, lead, tail);
    s[lead..|s| - tail]
  }

  /** What cutting the white-space prefix and then the white-space suffix
      leaves: the middle of `s`, with no white space at either end. */
  lemma TrimSlice(s: string, lead: nat, tail: nat)
    requires lead == Leading(s) && tail == Trailing(s[lead..])
    ensures lead + tail <= |s|
    ensures var r := s[lead..|s| - tail];
      && IsTrimmed(r)
      && (r == [] <==> AllSpace(s))
      && AllSpace(s[|s| - tail..])
  {
    var rest := s[lead..];
    forall i | |s| - tail <= i < |s| ensures IsSpace(s[i]) {
      assert s[i] == rest[|rest| - tail..][i - (|s| - tail)];
    }
    if lead + tail == |s| {
      forall i | 0 <= i < |s| ensures IsSpace(s[i]) {
        if i < lead {
          assert s[i] == s[..lead][i];
        }
      }
    } else {
      assert s[|s| - tail - 1] == rest[|rest| - 1 - tail];
      assert !IsSpace(s[lead]);
    }
  }

  /** Trimming a string that is already trimmed changes nothing. */
  lemma TrimmedIsFixed(s: string)
    requires IsTrimmed(s)
    ensures Trim(s) == s
  {
  }

  /** trim is idempotent, so a history entry's text is its own trim. */
  lemma TrimIdempotent(s: string)
    ensures Trim(Trim(s)) == Trim(s)
  {
    TrimmedIsFixed(Trim(s));
  }

  /** The entries one completed turn appends to the history: the trimmed user
      buffer (if not blank), then the trimmed agent buffer (if not blank),
      both stamped with the same clock reading. */
  function TurnEntries(user: string, ayara: string, now: int): (r: seq<TranscriptionEntry>)
    ensures |r| == (if AllSpace(user) then 0 else 1) + (if AllSpace(ayara) then 0 else 1)
    ensures forall e | e in r :: e.timestamp == now && e.text != [] && IsTrimmed(e.text)
    ensures (|r| > 0 && r[0].sender == User) <==> !AllSpace(user)
    ensures (|r| > 0 && r[|r| - 1].sender == Ayara) <==> !AllSpace(ayara)
    ensures forall i | 0 <= i < |r| ::
      && (r[i].sender == User ==> i == 0 && r[i].text == Trim(user))
      && (r[i].sender == Ayara ==> i == |r| - 1 && r[i].text == Trim(ayara))
  {
    var u := Trim(user);
    var a := Trim(ayara);
    (if u != [] then [TranscriptionEntry(u, User, now)] else [])
      + (if a != [] then [TranscriptionEntry(a, Ayara, now)] else [])
  }
}
