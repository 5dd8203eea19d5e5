/** Text operations shared by the other modules. */
module Text {

  /** What the source language counts as white space. */
  predicate Space(c: char) {
    var n := c as int;
    9 <= n <= 13 || 28 <= n <= 32 || n == 0x85 || n == 0xA0 || n == 0x1680 || 0x2000 <= n <= 0x200A
    || n == 0x2028 || n == 0x2029 || n == 0x202F || n == 0x205F || n == 0x3000
  }

  function Strip(s: string): string
    decreases |s|
  {
    if s != "" && Space(s[0]) then Strip(s[1..])
    else if s != "" && Space(s[|s| - 1]) then Strip(s[..|s| - 1])
    else s
  }

  /** The maximal runs of characters that are not spaces; word is the one being read. */
  function Words(s: string, word: string): seq<string>
    decreases |s|
  {
    var done := if word == "" then [] else [word];
    if s == "" then done
    else if Space(s[0]) then done + Words(s[1..], "")
    else Words(s[1..], word + [s[0]])
  }

  function JoinWith(separator: string, items: seq<string>): string {
    if items == [] then "" else if |items| == 1 then items[0]
    else JoinWith(separator, items[..|items| - 1]) + separator + items[|items| - 1]
  }

  function Digits(n: nat): string {
    var last := [("0123456789")[n % 10]];
    if n < 10 then last else Digits(n / 10) + last
  }
}
