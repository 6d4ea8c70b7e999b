/**
 * `escape_lua_string`: making a string safe to put between double quotes
 * in a Lua source file.
 *
 * The source chains four `str.replace` calls. The backslash is replaced
 * first, so the backslashes the later steps add are never doubled. This
 * module models the chain as written, proves that it escapes one character
 * at a time, and proves that reading the result back as a Lua short string
 * literal gives the input again. The reading rules are those of section
 * 3.1 of the Lua 5.4 Reference Manual.
 */
module LuaEscape {
  import opened Wrappers

  /** Python's `s.replace(c, by)` for a one-character `c`. */
  function ReplaceChar(s: string, c: char, rep: string): (r: string)
  {
    if s == [] then [] else (if s[0] == c then rep else [s[0]]) + ReplaceChar(s[1..], c, rep)
  }

  /** `escape_lua_string`: the empty string stays empty; otherwise the four
      replaces run in the order the source gives. */
  function EscapeLuaString(text: string): string
  {
    if text == [] then []
    else ReplaceChar(ReplaceChar(ReplaceChar(ReplaceChar(text, '\\', "\\\\"), '"', "\\\""), '\n', "\\n"), '\r', "\\r")
  }

  /** The escape of a single character. */
  function EscapeChar(c: char): string
  {
    if c == '\\' then "\\\\"
    else if c == '"' then "\\\""
    else if c == '\n' then "\\n"
    else if c == '\r' then "\\r"
    else [c]
  }

  /** Escaping character by character. */
  function EscapeEach(s: string): string
  {
    if s == [] then [] else EscapeChar(s[0]) + EscapeEach(s[1..])
  }

  /** Replacing distributes over concatenation. */
  lemma {:induction false} ReplaceConcat(a: string, b: string, c: char, rep: string)
    ensures ReplaceChar(a + b, c, rep) == ReplaceChar(a, c, rep) + ReplaceChar(b, c, rep)
  {
    if a != [] {
      assert (a + b)[0] == a[0] && (a + b)[1..] == a[1..] + b;
      ReplaceConcat(a[1..], b, c, rep);
    } else {
      assert a + b == b;
    }
  }

  function Chain(s: string): string
  {
    ReplaceChar(ReplaceChar(ReplaceChar(ReplaceChar(s, '\\', "\\\\"), '"', "\\\""), '\n', "\\n"), '\r', "\\r")
  }

  lemma ChainConcat(a: string, b: string)
    ensures Chain(a + b) == Chain(a) + Chain(b)
  {
    var s1a, s1b := ReplaceChar(a, '\\', "\\\\"), ReplaceChar(b, '\\', "\\\\");
    ReplaceConcat(a, b, '\\', "\\\\");
    var s2a, s2b := ReplaceChar(s1a, '"', "\\\""), ReplaceChar(s1b, '"', "\\\"");
    ReplaceConcat(s1a, s1b, '"', "\\\"");
    var s3a, s3b := ReplaceChar(s2a, '\n', "\\n"), ReplaceChar(s2b, '\n', "\\n");
    ReplaceConcat(s2a, s2b, '\n', "\\n");
    ReplaceConcat(s3a, s3b, '\r', "\\r");
  }

  lemma ReplaceShort(s: string, c: char, rep: string)
    requires |s| <= 2
    ensures ReplaceChar(s, c, rep) ==
      if s == [] then []
      else if |s| == 1 then (if s[0] == c then rep else s)
      else (if s[0] == c then rep else [s[0]]) + (if s[1] == c then rep else [s[1]])
  {
    if |s| == 1 {
      assert ReplaceChar(s[1..], c, rep) == [];
    } else if |s| == 2 {
      assert ReplaceChar(s[1..][1..], c, rep) == [];
    }
  }

  lemma ChainOne(c: char)
    ensures Chain([c]) == EscapeChar(c)
  {
    ReplaceShort([c], '\\', "\\\\");
    var s1 := ReplaceChar([c], '\\', "\\\\");
    ReplaceShort(s1, '"', "\\\"");
    var s2 := ReplaceChar(s1, '"', "\\\"");
    ReplaceShort(s2, '\n', "\\n");
    var s3 := ReplaceChar(s2, '\n', "\\n");
    ReplaceShort(s3, '\r', "\\r");
  }

  /** The chained replaces escape each character independently: no step
      touches what an earlier step produced. */
  lemma {:induction false} EscapeIsPerCharacter(s: string)
    ensures EscapeLuaString(s) == EscapeEach(s)
  {
    if s != [] {
      ChainIsEach(s);
    }
  }

  lemma {:induction false} ChainIsEach(s: string)
    ensures Chain(s) == EscapeEach(s)
  {
    if s != [] {
      assert s == [s[0]] + s[1..];
      ChainConcat([s[0]], s[1..]);
      ChainOne(s[0]);
      ChainIsEach(s[1..]);
    }
  }

  // ---------------------------------------------------------------------
  // Reading a short string literal back

  /** The character that a backslash followed by `c` stands for, for the
      one-character escapes of section 3.1 of the Lua 5.4 manual. Other
      escapes (`\z`, `\x`, `\u{...}`, decimal escapes, a backslash before a
      line break) are not modelled and read as `None`. */
  function EscapeMeaning(c: char): Option<char>
  {
    match c
    case 'a' => Some(7 as char)
    case 'b' => Some(8 as char)
    case 'f' => Some(12 as char)
    case 'n' => Some('\n')
    case 'r' => Some('\r')
    case 't' => Some('\t')
    case 'v' => Some(11 as char)
    case '\\' => Some('\\')
    case '"' => Some('"')
    case '\'' => Some('\'')
    case _ => None
  }

  /** The string denoted by `body` when it sits between double quotes in Lua
      source, or `None` when Lua would not read it as one literal: an
      unescaped `"` ends the literal early, a raw line break leaves it
      unfinished, and a lone backslash at the end escapes the closing quote. */
  function ReadShortString(body: string): Option<string>
  {
    if body == [] then Some([])
    else if body[0] == '\\' then
      if |body| == 1 then None
      else
        match EscapeMeaning(body[1])
        case None => None
        case Some(c) =>
          match ReadShortString(body[2..])
          case None => None
          case Some(rest) => Some([c] + rest)
    else if body[0] == '"' || body[0] == '\n' || body[0] == '\r' then None
    else
      match ReadShortString(body[1..])
      case None => None
      case Some(rest) => Some([body[0]] + rest)
  }

  /** What `escape_lua_string` promises: Lua reads the quoted result as
      exactly the original text. */
  lemma EscapeRoundTrip(s: string)
    ensures ReadShortString(EscapeLuaString(s)) == Some(s)
  {
    EscapeIsPerCharacter(s);
    EachRoundTrip(s);
  }

  lemma {:induction false} EachRoundTrip(s: string)
    ensures ReadShortString(EscapeEach(s)) == Some(s)
  {
    if s != [] {
      var e, rest := EscapeChar(s[0]), EscapeEach(s[1..]);
      EachRoundTrip(s[1..]);
      var b := e + rest;
      if |e| == 2 {
        assert b[2..] == rest;
      } else {
        assert b[1..] == rest;
      }
      assert s == [s[0]] + s[1..];
    }
  }

  /** The escaped text never holds a raw line feed or carriage return, so
      each emitted line of the database stays one line. */
  lemma {:induction false} EscapedIsOneLine(s: string)
    ensures '\n' !in EscapeLuaString(s) && '\r' !in EscapeLuaString(s)
  {
    EscapeIsPerCharacter(s);
    EachIsOneLine(s);
  }

  lemma {:induction false} EachIsOneLine(s: string)
    ensures '\n' !in EscapeEach(s) && '\r' !in EscapeEach(s)
  {
    if s != [] {
      EachIsOneLine(s[1..]);
    }
  }
}
