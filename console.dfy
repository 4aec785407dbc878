/**
 * The diagnostic console's character output. The stdio stream hands every
 * character of a printed string to the put-character routine, which sends a
 * carriage return ahead of each line feed; the UART itself is abstracted
 * away and a routine's effect is the sequence of characters it transmits.
 */
module Console {

  /** Number of line feeds in `s`. */
  function Newlines(s: seq<char>): (n: nat)
    ensures n <= |s|
  {
    if s == [] then 0 else (if s[0] == '\n' then 1 else 0) + Newlines(s[1..])
  }

  /** The characters transmitted for one character `c`. A line feed first
    * sends a carriage return through the same routine; that inner call
    * stops because a carriage return is not a line feed. */
  function PutChr(c: char): (out: seq<char>)
    decreases if c == '\n' then 1 else 0
    ensures out != [] && out[|out| - 1] == c
    ensures |out| == if c == '\n' then 2 else 1
    ensures c == '\n' ==> out[0] == '\r'
    ensures out[0] != '\n'
  {
    (if c == '\n' then PutChr('\r') else []) + [c]
  }

  /** The characters transmitted for a whole string, one PutChr per
    * character in order. */
  function Stream(s: seq<char>): (out: seq<char>)
    ensures |out| == |s| + Newlines(s)
    ensures s != [] ==> out[0] != '\n'
    ensures forall i :: 0 <= i < |out| && out[i] == '\n' ==> 0 < i && out[i - 1] == '\r'
  {
    if s == [] then [] else PutChr(s[0]) + Stream(s[1..])
  }

  /** Drops each carriage return that stands right before a line feed. */
  function Strip(t: seq<char>): (s: seq<char>)
    ensures |s| <= |t|
  {
    if t == [] then []
    else if |t| >= 2 && t[0] == '\r' && t[1] == '\n' then ['\n'] + Strip(t[2..])
    else [t[0]] + Strip(t[1..])
  }

  /** The only characters the translation adds are the carriage returns
    * before line feeds: removing them gives back what was printed. */
  lemma {:induction false} StripStream(s: seq<char>)
    ensures Strip(Stream(s)) == s
  {
    if s != [] {
      var t := Stream(s);
      var rest := Stream(s[1..]);
      StripStream(s[1..]);
      if s[0] == '\n' {
        assert t == ['\r', '\n'] + rest;
        assert t[2..] == rest;
      } else {
        assert t == [s[0]] + rest;
        assert t[1..] == rest;
        assert |t| >= 2 ==> t[1] != '\n';
      }
      assert s == [s[0]] + s[1..];
    }
  }

  /** A string without line feeds is transmitted unchanged. */
  lemma {:induction false} NoNewlineUnchanged(s: seq<char>)
    requires Newlines(s) == 0
    ensures Stream(s) == s
  {
    if s != [] {
      NoNewlineUnchanged(s[1..]);
      assert s == [s[0]] + s[1..];
    }
  }

  /** Printing two strings one after the other transmits the same as
    * printing them joined. */
  lemma {:induction false} StreamAppend(a: seq<char>, b: seq<char>)
    ensures Stream(a + b) == Stream(a) + Stream(b)
  {
    if a != [] {
      assert (a + b)[0] == a[0];
      assert (a + b)[1..] == a[1..] + b;
      StreamAppend(a[1..], b);
    } else {
      assert a + b == b;
    }
  }
}
