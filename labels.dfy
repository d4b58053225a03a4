/**
 * Turning a snake_case key into the label shown beside a top feature:
 * every underscore becomes a space, then every word character that starts
 * a word (a regular-expression `\b\w` match) is upper-cased.
 */
module Labels {

  /** A regular-expression word character `\w`: an ASCII letter, digit or underscore. */
  predicate IsWordChar(c: char) {
    'a' <= c <= 'z' || 'A' <= c <= 'Z' || '0' <= c <= '9' || c == '_'
  }

  /** `toUpperCase` on a word character: lower-case ASCII letters move up, the rest stay. */
  function ToUpper(c: char): (u: char)
    ensures 'a' <= c <= 'z' ==> 'A' <= u <= 'Z' && u as int == c as int - 32
    ensures !('a' <= c <= 'z') ==> u == c
  {
    if 'a' <= c <= 'z' then (c as int - 32) as char else c
  }

  /** The first pass, `replace(/_/g, ' ')`. */
  function SpaceUnderscores(s: string): (r: string)
    ensures |r| == |s|
    ensures forall i :: 0 <= i < |s| ==> r[i] == (if s[i] == '_' then ' ' else s[i])
  {
    if s == [] then [] else [if s[0] == '_' then ' ' else s[0]] + SpaceUnderscores(s[1..])
  }

  /**
   * The second pass, `replace(/\b\w/g, l => l.toUpperCase())`, scanning left
   * to right; `afterWord` says whether the character before `s` was a word character.
   */
  function CapitalizeAfter(s: string, afterWord: bool): (r: string)
    ensures |r| == |s|
    ensures forall i :: 0 <= i < |s| ==> r[i] == s[i] || r[i] == ToUpper(s[i])
  {
    if s == [] then []
    else
      [if IsWordChar(s[0]) && !afterWord then ToUpper(s[0]) else s[0]]
      + CapitalizeAfter(s[1..], IsWordChar(s[0]))
  }

  function CapitalizeWords(s: string): string {
    CapitalizeAfter(s, false)
  }

  /** Position `i` of `s` is where a `\b\w` match begins: a word character with no word character before it. */
  predicate StartsWord(s: string, i: int)
    requires 0 <= i < |s|
  {
    IsWordChar(s[i]) && (i == 0 || !IsWordChar(s[i - 1]))
  }

  lemma {:induction false} CapitalizeAfterAt(s: string, afterWord: bool, i: int)
    requires 0 <= i < |s|
    ensures CapitalizeAfter(s, afterWord)[i]
         == if IsWordChar(s[i]) && !(if i == 0 then afterWord else IsWordChar(s[i - 1]))
            then ToUpper(s[i]) else s[i]
  {
    var r := CapitalizeAfter(s, afterWord);
    assert r == [if IsWordChar(s[0]) && !afterWord then ToUpper(s[0]) else s[0]]
                + CapitalizeAfter(s[1..], IsWordChar(s[0]));
    if i > 0 {
      CapitalizeAfterAt(s[1..], IsWordChar(s[0]), i - 1);
      assert s[1..][i - 1] == s[i];
      assert r[i] == CapitalizeAfter(s[1..], IsWordChar(s[0]))[i - 1];
    }
  }

  /** The scan capitalises exactly the characters where a `\b\w` match begins. */
  lemma CapitalizeWordsAt(s: string, i: int)
    requires 0 <= i < |s|
    ensures CapitalizeWords(s)[i] == if StartsWord(s, i) then ToUpper(s[i]) else s[i]
  {
    CapitalizeAfterAt(s, false, i);
  }

  /** The label shown for a feature key. */
  function FormatLabel(key: string): (title: string)
    ensures |title| == |key|
    ensures '_' !in title
    ensures forall i :: 0 <= i < |key| ==> (title[i] == ' ' <==> key[i] == '_' || key[i] == ' ')
  {
    var spaced := SpaceUnderscores(key);
    var capitalized := CapitalizeWords(spaced);
    assert forall i :: 0 <= i < |key| ==> capitalized[i] == spaced[i] || capitalized[i] == ToUpper(spaced[i]);
    capitalized
  }

  /**
   * Character by character: an underscore becomes a space, a character that
   * begins a word after the underscores are gone is upper-cased, and every
   * other character is kept.
   */
  lemma FormatLabelAt(key: string, i: int)
    requires 0 <= i < |key|
    ensures var spaced := SpaceUnderscores(key);
      FormatLabel(key)[i]
      == if key[i] == '_' then ' '
         else if StartsWord(spaced, i) then ToUpper(key[i])
         else key[i]
  {
    CapitalizeWordsAt(SpaceUnderscores(key), i);
  }

  /** A non-empty run of lower-case ASCII letters, such as one word of a snake_case key. */
  predicate IsLowerWord(w: string) {
    |w| > 0 && AllLower(w)
  }

  predicate AllLower(w: string) {
    w == [] || ('a' <= w[0] <= 'z' && AllLower(w[1..]))
  }

  lemma {:induction false} AllLowerAt(w: string, i: int)
    requires AllLower(w) && 0 <= i < |w|
    ensures 'a' <= w[i] <= 'z'
  {
    if i > 0 {
      AllLowerAt(w[1..], i - 1);
    }
  }

  /** A lower-case word with its first letter upper-cased. */
  function TitleWord(w: string): string
    requires IsLowerWord(w)
  {
    [ToUpper(w[0])] + w[1..]
  }

  /** A one-word key is shown with its first letter upper-cased. */
  lemma FormatOneWord(w: string)
    requires IsLowerWord(w)
    ensures FormatLabel(w) == TitleWord(w)
  {
    forall i | 0 <= i < |w| ensures FormatLabel(w)[i] == TitleWord(w)[i] {
      FormatLabelAt(w, i);
      AllLowerAt(w, i);
      if i > 0 {
        AllLowerAt(w, i - 1);
      }
    }
  }

  /** A two-word key `w1_w2` is shown as `W1 W2`. */
  lemma FormatTwoWords(w1: string, w2: string)
    requires IsLowerWord(w1) && IsLowerWord(w2)
    ensures FormatLabel(w1 + "_" + w2) == TitleWord(w1) + " " + TitleWord(w2)
  {
    var key := w1 + "_" + w2;
    var shown := TitleWord(w1) + " " + TitleWord(w2);
    forall i | 0 <= i < |key| ensures FormatLabel(key)[i] == shown[i] {
      FormatLabelAt(key, i);
      if i < |w1| {
        AllLowerAt(w1, i);
        if i > 0 {
          AllLowerAt(w1, i - 1);
        }
      } else if i > |w1| {
        assert key[i] == w2[i - |w1| - 1];
        AllLowerAt(w2, i - |w1| - 1);
        if i > |w1| + 1 {
          AllLowerAt(w2, i - |w1| - 2);
        }
      }
    }
  }
}
