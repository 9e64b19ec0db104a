/** ASCII case mapping, the part of Ruby's String#capitalize, #downcase and the
    `/i` regexp flag that the modelled code relies on. */
module AsciiText {

  predicate IsUpper(c: char) { 'A' <= c <= 'Z' }

  predicate IsLower(c: char) { 'a' <= c <= 'z' }

  function UpChar(c: char): (r: char)
    ensures c != '_' ==> r != '_'
    ensures c == '_' ==> r == '_'
    ensures !IsLower(r)
  {
    if IsLower(c) then (c as int - 32) as char else c
  }

  function DownChar(c: char): (r: char)
    ensures c != '_' ==> r != '_'
    ensures c == '_' ==> r == '_'
    ensures !IsUpper(r)
  {
    if IsUpper(c) then (c as int + 32) as char else c
  }

  /** String#downcase restricted to ASCII letters. */
  function Down(s: string): (r: string)
    ensures |r| == |s|
  {
    if s == [] then [] else [DownChar(s[0])] + Down(s[1..])
  }

  /** Down works character by character. */
  lemma {:induction false} DownAt(s: string, i: nat)
    requires i < |s|
    ensures Down(s)[i] == DownChar(s[i])
  {
    if i > 0 {
      DownAt(s[1..], i - 1);
    }
  }

}
