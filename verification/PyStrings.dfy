/** The parts of Python's str that the runtime relies on: whitespace, strip, split and join. */
module PyStrings {

  /** str.isspace for one code point. */
  predicate IsSpace(c: char) {
    var n := c as int;
    9 <= n <= 13 || 28 <= n <= 32 || n == 0x85 || n == 0xA0 || n == 0x1680
    || 0x2000 <= n <= 0x200A || n == 0x2028 || n == 0x2029 || n == 0x202F || n == 0x205F || n == 0x3000
  }

  function LStrip(s: string): (r: string)
    ensures |r| <= |s| && r == s[|s| - |r|..]
    ensures r != "" ==> !IsSpace(r[0])
    ensures forall i :: 0 <= i < |s| - |r| ==> IsSpace(s[i])
  {
    if s != "" && IsSpace(s[0]) then LStrip(s[1..]) else s
  }

  function RStrip(s: string): (r: string)
    ensures |r| <= |s| && r == s[..|r|]
    ensures r != "" ==> !IsSpace(r[|r| - 1])
    ensures forall i :: |r| <= i < |s| ==> IsSpace(s[i])
  {
    if s != "" && IsSpace(s[|s| - 1]) then RStrip(s[..|s| - 1]) else s
  }

  function Strip(s: string): (r: string)
    ensures IsStripped(r)
    ensures |r| <= |s|
  {
    RStrip(LStrip(s))
  }

  /** Neither end is whitespace. */
  predicate IsStripped(s: string) {
    s == "" || (!IsSpace(s[0]) && !IsSpace(s[|s| - 1]))
  }

  lemma StripOfStripped(s: string)
    requires IsStripped(s)
    ensures Strip(s) == s
  {
  }

  function Join(separator: string, parts: seq<string>): string {
    if |parts| == 0 then ""
    else if |parts| == 1 then parts[0]
    else parts[0] + separator + Join(separator, parts[1..])
  }

  lemma JoinFirst(separator: string, first: string, rest: seq<string>)
    ensures |Join(separator, [first] + rest)|
         == |first| + if rest == [] then 0 else |separator| + |Join(separator, rest)|
  {
    assert ([first] + rest)[1..] == rest;
  }

  /** Joining one part fewer never gives a longer text. */
  lemma {:induction false} JoinWithoutPart(separator: string, before: seq<string>, part: string, after: seq<string>)
    ensures |Join(separator, before + after)| <= |Join(separator, before + [part] + after)|
  {
    if |before| == 0 {
      assert before + after == after;
      assert before + [part] + after == [part] + after;
      assert ([part] + after)[1..] == after;
    } else {
      hide Join;
      var rest := before[1..];
      JoinWithoutPart(separator, rest, part, after);
      assert before + after == [before[0]] + (rest + after);
      assert before + [part] + after == [before[0]] + (rest + [part] + after);
      JoinFirst(separator, before[0], rest + after);
      JoinFirst(separator, before[0], rest + [part] + after);
    }
  }
}
