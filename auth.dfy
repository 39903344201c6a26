/** Bearer-token extraction for the gateway's authentication middleware: the Authorization
    header must begin with "bearer " in any letter case; the token is the rest of the header
    with surrounding white space removed. */
module Auth {

  /** Go's unicode.IsSpace: the Latin-1 spaces and the other Unicode White_Space characters. */
  const Spaces: set<char> := {
    '\t', '\n', '\U{000B}', '\U{000C}', '\r', ' ', '\U{0085}', '\U{00A0}', '\U{1680}',
    '\U{2000}', '\U{2001}', '\U{2002}', '\U{2003}', '\U{2004}', '\U{2005}', '\U{2006}',
    '\U{2007}', '\U{2008}', '\U{2009}', '\U{200A}',
    '\U{2028}', '\U{2029}', '\U{202F}', '\U{205F}', '\U{3000}'}

  predicate IsSpace(c: char) { c in Spaces }

  /** The number of white-space characters the string starts with. */
  function LeadingSpaces(s: string): (n: nat)
    ensures n <= |s|
    ensures forall i :: 0 <= i < n ==> IsSpace(s[i])
    ensures n < |s| ==> !IsSpace(s[n])
    decreases |s|
  {
    if s != [] && IsSpace(s[0]) then 1 + LeadingSpaces(s[1..]) else 0
  }

  /** The number of white-space characters the string ends with. */
  function TrailingSpaces(s: string): (n: nat)
    ensures n <= |s|
    ensures forall i :: |s| - n <= i < |s| ==> IsSpace(s[i])
    ensures n < |s| ==> !IsSpace(s[|s| - n - 1])
    decreases |s|
  {
    if s != [] && IsSpace(s[|s| - 1]) then 1 + TrailingSpaces(s[..|s| - 1]) else 0
  }

  /** strings.TrimSpace: the piece of `s` between its leading and its trailing white space;
      everything before and after the piece is white space, and the piece neither starts nor
      ends with white space. */
  function TrimSpace(s: string): (r: string)
    ensures var o := LeadingSpaces(s);
      && o + |r| <= |s| && r == s[o..o + |r|]
      && forall i :: o + |r| <= i < |s| ==> IsSpace(s[i])
    ensures r != [] ==> !IsSpace(r[0]) && !IsSpace(r[|r| - 1])
    ensures (forall i :: 0 <= i < |s| ==> IsSpace(s[i])) ==> r == []
    ensures (forall i :: 0 <= i < |s| ==> !IsSpace(s[i])) ==> r == s
  {
    var l := s[LeadingSpaces(s)..];
    l[..|l| - TrailingSpaces(l)]
  }

  /** ASCII case folding. Go lowers the whole header with Unicode rules before the prefix
      test, but no character outside ASCII lowers to a letter of "bearer " or to a space, so
      the test is the same. */
  function LowerAscii(c: char): char {
    if 'A' <= c <= 'Z' then (c as int - 'A' as int + 'a' as int) as char else c
  }

  const Scheme := "bearer "

  predicate HasBearerPrefix(header: string) {
    |header| >= |Scheme| && forall i :: 0 <= i < |Scheme| ==> LowerAscii(header[i]) == Scheme[i]
  }

  /** extractBearer: "" unless the header starts with the scheme; otherwise the rest of the
      header, trimmed. */
  function ExtractBearer(header: string): (token: string)
    ensures !HasBearerPrefix(header) ==> token == ""
    ensures HasBearerPrefix(header) ==> token == TrimSpace(header[|Scheme|..])
    ensures token != [] ==> !IsSpace(token[0]) && !IsSpace(token[|token| - 1])
  {
    if HasBearerPrefix(header) then TrimSpace(header[|Scheme|..]) else ""
  }

  /** The scheme alone yields no token, and so does the scheme followed only by spaces. */
  lemma SchemeWithoutToken()
    ensures ExtractBearer("Bearer") == ""
    ensures ExtractBearer("Bearer   ") == ""
  {
    assert !HasBearerPrefix("Bearer");
    assert HasBearerPrefix("Bearer   ");
    assert "Bearer   "[7..] == "  ";
    assert IsSpace("  "[0]) && IsSpace("  "[1]);
  }

  /** Trimming drops the spaces on both sides of a token. */
  lemma TrimTok()
    ensures TrimSpace(" tok ") == "tok"
  {
    assert IsSpace(' ') && !IsSpace('t') && !IsSpace('k');
    assert " tok "[0] == ' ' && " tok "[1..] == "tok " && "tok "[0] == 't';
    assert LeadingSpaces(" tok ") == 1;
    assert "tok "[3] == ' ' && "tok "[..3] == "tok" && "tok"[2] == 'k';
    assert TrailingSpaces("tok ") == 1;
  }

  /** The scheme matches in any letter case, and spaces around the token are dropped. */
  lemma TokenInAnyCase()
    ensures ExtractBearer("BEARER  tok ") == "tok"
  {
    var header := "BEARER  tok ";
    assert LowerAscii('B') == 'b' && LowerAscii('E') == 'e' && LowerAscii('A') == 'a' && LowerAscii('R') == 'r';
    assert HasBearerPrefix(header);
    assert header[7..] == " tok ";
    TrimTok();
  }

  /** Another scheme yields no token. */
  lemma OtherSchemeRejected()
    ensures ExtractBearer("Basic abc") == ""
  {
    assert LowerAscii("Basic abc"[1]) != Scheme[1];
  }
}
