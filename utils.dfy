/** The helpers of src/utils/index.ts: the short code given to every new
    reminder, and the escaping of text sent with Telegram's MarkdownV2
    formatting. */
module Utils {
  /** The characters a short code is drawn from. */
  const Alphabet: string := "0123456789ABCDEFGHIJKLMNOPQRSTUVWXYZ"

  const CodeLength: nat := 6

  /** `characters.charAt(k)`: the one-character string at `k`, or the empty
      string when `k` is out of range. */
  function CharAt(s: string, k: int): string {
    if 0 <= k < |s| then [s[k]] else ""
  }

  /** The first `n` draws are indexes into the alphabet. */
  ghost predicate DrawsInRange(draw: nat -> int, n: nat) {
    forall j :: 0 <= j < n ==> 0 <= draw(j) < |Alphabet|
  }

  /** `generateShortCode()`. `draw(i)` is `Math.floor(Math.random() * 36)` at
      the `i`-th step. Whatever the draws, the code has at most six
      characters, all from the alphabet; when every draw is in range, as a
      random number in [0, 1) makes it, the code has exactly six, the `i`-th
      being the `draw(i)`-th character of the alphabet. */
  method GenerateShortCode(draw: nat -> int) returns (code: string)
    ensures |code| <= CodeLength
    ensures forall i :: 0 <= i < |code| ==> code[i] in Alphabet
    ensures DrawsInRange(draw, CodeLength) ==>
      |code| == CodeLength && forall i :: 0 <= i < CodeLength ==> code[i] == Alphabet[draw(i)]
  {
    code := "";
    for i := 0 to CodeLength
      invariant |code| <= i
      invariant forall j :: 0 <= j < |code| ==> code[j] in Alphabet
      invariant DrawsInRange(draw, i) ==> |code| == i && forall j :: 0 <= j < i ==> code[j] == Alphabet[draw(j)]
    {
      var piece := CharAt(Alphabet, draw(i));
      assert forall c :: c in piece ==> c in Alphabet;
      ghost var before := code;
      code := code + piece;
      if DrawsInRange(draw, i + 1) {
        assert DrawsInRange(draw, i) && 0 <= draw(i) < |Alphabet|;
        assert code == before + [Alphabet[draw(i)]];
      }
    }
  }

  /** The characters the Telegram Bot API's MarkdownV2 style requires to be
      escaped: the class `[_*[\]()~`>#+\-=|{}.!]`. */
  const Specials: string := "_*[]()~`>#+-=|{}.!"

  predicate IsSpecial(c: char) {
    c in Specials
  }

  /** The replacement `"\\$&"` for one character. */
  function EscapeChar(c: char): string {
    if IsSpecial(c) then ['\\', c] else [c]
  }

  function CountSpecial(s: string): nat {
    if s == [] then 0 else (if IsSpecial(s[0]) then 1 else 0) + CountSpecial(s[1..])
  }

  /** `escapeMarkdownV2(text)`: every special character gets a backslash
      immediately before it; every other character, backslash included, is
      copied unchanged and in order. */
  function EscapeMarkdownV2(s: string): (r: string)
    ensures |r| == |s| + CountSpecial(s)
    ensures forall i :: 0 <= i < |r| && IsSpecial(r[i]) ==> i > 0 && r[i - 1] == '\\'
    ensures s != [] ==> r != [] && !IsSpecial(r[0])
  {
    if s == [] then [] else
      var rest := EscapeMarkdownV2(s[1..]);
      var r := EscapeChar(s[0]) + rest;
      assert forall i :: |EscapeChar(s[0])| <= i < |r| ==> r[i] == rest[i - |EscapeChar(s[0])|];
      r
  }

  /** Escaping works character by character. */
  lemma {:induction false} EscapeAppend(a: string, b: string)
    ensures EscapeMarkdownV2(a + b) == EscapeMarkdownV2(a) + EscapeMarkdownV2(b)
    decreases |a|
  {
    if a == [] {
      assert a + b == b;
    } else {
      assert (a + b)[0] == a[0] && (a + b)[1..] == a[1..] + b;
      EscapeAppend(a[1..], b);
      calc {
        EscapeMarkdownV2(a + b);
        EscapeChar(a[0]) + EscapeMarkdownV2(a[1..] + b);
        EscapeChar(a[0]) + (EscapeMarkdownV2(a[1..]) + EscapeMarkdownV2(b));
        (EscapeChar(a[0]) + EscapeMarkdownV2(a[1..])) + EscapeMarkdownV2(b);
      }
    }
  }

  lemma EscapeOne(c: char)
    ensures EscapeMarkdownV2([c]) == if IsSpecial(c) then ['\\', c] else [c]
  {
    assert [c][1..] == [];
  }

  /** Reading an escaped text left to right: a backslash followed by a
      special character stands for that character. */
  function Unescape(t: string): string
    decreases |t|
  {
    if t == [] then []
    else if |t| >= 2 && t[0] == '\\' && IsSpecial(t[1]) then [t[1]] + Unescape(t[2..])
    else [t[0]] + Unescape(t[1..])
  }

  /** Escaping loses nothing: unescaping recovers the input. */
  lemma {:induction false} UnescapeEscape(s: string)
    ensures Unescape(EscapeMarkdownV2(s)) == s
    decreases |s|
  {
    if s != [] {
      var rest := EscapeMarkdownV2(s[1..]);
      UnescapeEscape(s[1..]);
      if IsSpecial(s[0]) {
        var t := ['\\', s[0]] + rest;
        assert t[2..] == rest;
      } else {
        var t := [s[0]] + rest;
        assert '\\' !in Specials;
        assert t[1..] == rest;
        assert !(|t| >= 2 && t[0] == '\\' && IsSpecial(t[1]));
      }
    }
  }
}
