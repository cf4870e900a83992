/** Go strings are byte strings, so every name, URL and header here is a `Text`. */
module Bytes {

  type Byte = x: int | 0 <= x < 256

  type Text = seq<Byte>

  // Only ever applied to ASCII literals.
  function Ascii(s: string): Text {
    seq(|s|, i requires 0 <= i < |s| => (s[i] as int) % 256)
  }

  const SPACE: Byte := 0x20
  const QUOTE: Byte := 0x22
  const BACKSLASH: Byte := 0x5c

  // strings.Join with a single space. Joining no parts gives the empty string.
  function Join(parts: seq<Text>): Text {
    if |parts| == 0 then []
    else if |parts| == 1 then parts[0]
    else parts[0] + [SPACE] + Join(parts[1..])
  }

  lemma JoinCons(first: Text, rest: seq<Text>)
    requires rest != []
    ensures Join([first] + rest) == first + [SPACE] + Join(rest)
  {
    assert ([first] + rest)[1..] == rest;
  }
}
