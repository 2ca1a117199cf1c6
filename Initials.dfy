/**
 * The avatar initials that Discussion and PointTable both compute as
 * `name.split(' ').map(n => n[0]).join('')`. For an empty segment `n[0]` is
 * `undefined`, which `join('')` renders as the empty string, so empty
 * segments contribute nothing.
 */
module Initials {
  import opened JsString

  /** `segments.map(n => n[0]).join('')`. */
  function FirstChars(segments: seq<string>): (r: string)
    ensures |r| <= |segments|
  {
    if segments == [] then []
    else (if segments[0] == [] then [] else [segments[0][0]]) + FirstChars(segments[1..])
  }

  /** The initials of a display name. */
  function Of(name: string): (r: string)
    ensures |r| <= SpaceCount(name) + 1
  {
    FirstChars(Split(name))
  }

  /**
   * Reference definition: the characters of `s` that start a word, that is,
   * are not spaces and stand first or right after a space. `atStart` says
   * whether the character before `s` was a space (or there was none).
   */
  function WordStarts(s: string, atStart: bool): string
  {
    if s == [] then []
    else (if atStart && s[0] != ' ' then [s[0]] else []) + WordStarts(s[1..], s[0] == ' ')
  }

  lemma {:induction false} FirstCharsOfSplit(s: string)
    ensures FirstChars(Split(s)) == WordStarts(s, true)
    ensures FirstChars(Split(s)[1..]) == WordStarts(s, false)
  {
    if s == [] {
    } else if s[0] == ' ' {
      FirstCharsOfSplit(s[1..]);
      assert Split(s) == [[]] + Split(s[1..]);
      assert Split(s)[1..] == Split(s[1..]);
    } else {
      FirstCharsOfSplit(s[1..]);
      var rest := Split(s[1..]);
      assert Split(s) == [[s[0]] + rest[0]] + rest[1..];
      assert Split(s)[1..] == rest[1..];
    }
  }

  /** The initials are exactly the first letter of every word, in order. */
  lemma InitialsAreWordStarts(name: string)
    ensures Of(name) == WordStarts(name, true)
  {
    FirstCharsOfSplit(name);
  }

  /** Every initial is a character of the name, and never a space. */
  lemma {:induction false} InitialsComeFromName(s: string, atStart: bool)
    ensures forall c :: c in WordStarts(s, atStart) ==> c in s && c != ' '
  {
    if s != [] {
      InitialsComeFromName(s[1..], s[0] == ' ');
    }
  }

  /** Inside a word nothing starts a new word. */
  lemma {:induction false} NoStartsInsideWord(w: string)
    requires ' ' !in w
    ensures WordStarts(w, false) == []
  {
    if w != [] {
      NoStartsInsideWord(w[1..]);
    }
  }

  /** A name of two words separated by one space has two initials. */
  lemma TwoWordInitials(first: string, last: string)
    requires first != [] && last != [] && ' ' !in first && ' ' !in last
    ensures Of(first + " " + last) == [first[0], last[0]]
  {
    var s := first + " " + last;
    InitialsAreWordStarts(s);
    NoStartsInsideWord(first[1..]);
    NoStartsInsideWord(last[1..]);
    assert s[1..] == first[1..] + (" " + last);
    WordStartsAfterWord(first[1..], " " + last);
    assert (" " + last)[1..] == last;
    assert s[0] == first[0] && first[0] != ' ';
    assert WordStarts(s, true) == [first[0]] + WordStarts(s[1..], false);
    assert WordStarts(s[1..], false) == WordStarts(last, true);
    assert last[0] != ' ';
    assert WordStarts(last, true) == [last[0]] + WordStarts(last[1..], false);
    assert WordStarts(last[1..], false) == [];
  }

  /** Running through the rest of a word, then on with what follows it. */
  lemma {:induction false} WordStartsAfterWord(w: string, t: string)
    requires ' ' !in w && t != [] && t[0] == ' '
    ensures WordStarts(w + t, false) == WordStarts(t[1..], true)
  {
    if w == [] {
      assert w + t == t;
    } else {
      assert (w + t)[1..] == w[1..] + t;
      WordStartsAfterWord(w[1..], t);
    }
  }

  /** The two names the components show as examples. */
  lemma InitialsExamples()
    ensures Of("John Doe") == "JD"
    ensures Of("Sarah Mitchell") == "SM"
  {
    assert "John Doe" == "John" + " " + "Doe";
    TwoWordInitials("John", "Doe");
    assert "Sarah Mitchell" == "Sarah" + " " + "Mitchell";
    TwoWordInitials("Sarah", "Mitchell");
  }
}
