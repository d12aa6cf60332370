/** Expansion of `${ENV:NAME}` placeholders in a connection string, in one pass. */
module Placeholders {
  import opened Common

  type Env = map<string, string>

  const OPEN: string := "${ENV:"

  // ── What a string means, independently of any environment ──────────────

  datatype Token = Text(c: char) | Bare | Var(name: string)

  /** Position of the first `}`. */
  function Brace(s: string): (r: Option<nat>)
    ensures r.Some? ==> r.value < |s| && s[r.value] == '}' && '}' !in s[..r.value]
    ensures r.None? ==> '}' !in s
  {
    if s == "" then None
    else if s[0] == '}' then Some(0)
    else
      match Brace(s[1..])
      case None => None
      case Some(i) =>
        assert s[..i + 1] == [s[0]] + s[1..][..i];
        Some(i + 1)
  }

  /** Reads the string character by character: a placeholder where one starts and is closed, the
      bare opener where it is never closed, and plain text everywhere else. */
  function Tokens(s: string): seq<Token>
    decreases |s|
  {
    if s == "" then []
    else if OPEN <= s then
      var after := s[|OPEN|..];
      match Brace(after)
      case Some(end) => [Var(after[..end])] + Tokens(after[end + 1..])
      case None => [Bare] + Tokens(after)
    else [Text(s[0])] + Tokens(s[1..])
  }

  function Show(t: Token, env: Env): string {
    match t
    case Text(c) => [c]
    case Bare => OPEN
    case Var(name) => if name in env then env[name] else OPEN + name + "}"
  }

  function Render(ts: seq<Token>, env: Env): string {
    if ts == [] then "" else Show(ts[0], env) + Render(ts[1..], env)
  }

  function Names(ts: seq<Token>): set<string> {
    if ts == [] then {}
    else (match ts[0] case Var(name) => {name} case _ => {}) + Names(ts[1..])
  }

  // ── The scanner ────────────────────────────────────────────────────────

  /** No placeholder opens within the first `n` characters. */
  ghost predicate NoOpenBefore(s: string, n: nat)
    requires n <= |s|
  {
    n == 0 || (!(OPEN <= s) && NoOpenBefore(s[1..], n - 1))
  }

  /** Position of the first opener. */
  function FindOpen(s: string): (r: Option<nat>)
    ensures r.Some? ==> r.value + |OPEN| <= |s| && OPEN <= s[r.value..] && NoOpenBefore(s, r.value)
    ensures r.None? ==> NoOpenBefore(s, |s|)
  {
    if s == "" then None
    else if OPEN <= s then Some(0)
    else
      match FindOpen(s[1..])
      case None => None
      case Some(i) => Some(i + 1)
  }

  // One reading step at a time.

  lemma RenderCons(t: Token, ts: seq<Token>, env: Env)
    ensures Render([t] + ts, env) == Show(t, env) + Render(ts, env)
  {
    assert ([t] + ts)[1..] == ts;
  }

  lemma NamesCons(t: Token, ts: seq<Token>)
    ensures Names(ts) <= Names([t] + ts)
    ensures t.Var? ==> t.name in Names([t] + ts)
  {
    assert ([t] + ts)[1..] == ts;
  }

  /** The first token of a nonempty string, and the rest of the string behind it. */
  function Head(s: string): (Token, string)
    requires s != ""
  {
    if OPEN <= s then
      var after := s[|OPEN|..];
      match Brace(after)
      case Some(end) => (Var(after[..end]), after[end + 1..])
      case None => (Bare, after)
    else (Text(s[0]), s[1..])
  }

  lemma HeadStep(s: string, env: Env)
    requires s != ""
    ensures Tokens(s) == [Head(s).0] + Tokens(Head(s).1)
    ensures Render(Tokens(s), env) == Show(Head(s).0, env) + Render(Tokens(Head(s).1), env)
    ensures |Head(s).1| < |s|
  {
    RenderCons(Head(s).0, Tokens(Head(s).1), env);
  }

  lemma HeadText(s: string)
    requires s != ""
    ensures s == Show(Head(s).0, map[]) + Head(s).1
  {
    if OPEN <= s {
      var after := s[|OPEN|..];
      assert s == OPEN + after;
      var end := Brace(after);
      if end.Some? {
        assert after == after[..end.value] + ("}" + after[end.value + 1..]);
      }
    }
  }

  lemma TextStep(s: string, env: Env)
    requires s != "" && !(OPEN <= s)
    ensures Render(Tokens(s), env) == [s[0]] + Render(Tokens(s[1..]), env)
  {
    HeadStep(s, env);
  }

  lemma Glue(s: string, n: nat, suffix: string)
    requires 0 < n <= |s|
    ensures s[1..][n - 1..] == s[n..]
    ensures [s[0]] + (s[1..][..n - 1] + suffix) == s[..n] + suffix
  {
    assert s[..n] == [s[0]] + s[1..][..n - 1];
  }

  /** Text before the first opener is copied. */
  lemma {:induction false} CopyText(s: string, n: nat, env: Env)
    requires n <= |s| && NoOpenBefore(s, n)
    ensures Render(Tokens(s), env) == s[..n] + Render(Tokens(s[n..]), env)
  {
    if n == 0 {
      assert s[0..] == s;
    } else {
      TextStep(s, env);
      CopyText(s[1..], n - 1, env);
      Glue(s, n, Render(Tokens(s[n..]), env));
    }
  }

  /** One round of the scanner: the text up to an opener, then the token that starts there. */
  lemma ScanStep(rest: string, start: nat, env: Env)
    requires start + |OPEN| <= |rest| && OPEN <= rest[start..] && NoOpenBefore(rest, start)
    ensures Render(Tokens(rest), env)
         == rest[..start] + Show(Head(rest[start..]).0, env) + Render(Tokens(Head(rest[start..]).1), env)
  {
    hide Tokens, Head, Show, Render, NoOpenBefore;
    CopyText(rest, start, env);
    HeadStep(rest[start..], env);
  }

  /** A closed placeholder becomes the value of its variable, inserted as it is, or stays if there is none; the
      text behind it is scanned on its own. */
  lemma PlaceholderExpands(name: string, rest: string, env: Env)
    requires '}' !in name
    ensures Render(Tokens(OPEN + name + "}" + rest), env)
         == (if name in env then env[name] else OPEN + name + "}") + Render(Tokens(rest), env)
  {
    var s := OPEN + name + "}" + rest;
    var after := s[|OPEN|..];
    assert after == name + "}" + rest;
    BraceAt(name, rest);
    assert after[..|name|] == name && after[|name| + 1..] == rest;
    HeadStep(s, env);
  }

  lemma {:induction false} BraceAt(name: string, rest: string)
    requires '}' !in name
    ensures Brace(name + "}" + rest) == Some(|name|)
    decreases |name|
  {
    var s := name + "}" + rest;
    if name != "" {
      BraceAt(name[1..], rest);
      assert s[1..] == name[1..] + "}" + rest;
    }
  }

  /** The substitution of the placeholder that opens at `start`, and what is left to scan. */
  method Substitute(rest: string, start: nat, env: Env) returns (shown: string, left: string)
    requires start + |OPEN| <= |rest| && OPEN <= rest[start..]
    ensures |left| < |rest|
    ensures shown == Show(Head(rest[start..]).0, env) && left == Head(rest[start..]).1
  {
    var after := rest[start + |OPEN|..];
    assert rest[start..][|OPEN|..] == after;
    var end := Brace(after);
    if end.Some? {
      var varName := after[..end.value];
      shown := if varName in env then env[varName] else OPEN + varName + "}";
      left := after[end.value + 1..];
    } else {
      shown := OPEN;
      left := after;
    }
  }

  lemma Regroup(done: string, todo: string, text: string, shown: string, next: string)
    requires todo == text + shown + next
    ensures done + todo == done + text + shown + next
  {
  }

  method ExpandEnvVars(s: string, env: Env) returns (result: string)
    ensures result == Render(Tokens(s), env)
  {
    result := "";
    var rest := s;
    var start := FindOpen(rest);
    while start.Some?
      invariant start == FindOpen(rest)
      invariant Render(Tokens(s), env) == result + Render(Tokens(rest), env)
      decreases |rest|
    {
      ScanStep(rest, start.value, env);
      var shown, left := Substitute(rest, start.value, env);
      Regroup(result, Render(Tokens(rest), env), rest[..start.value], shown, Render(Tokens(left), env));
      result := result + rest[..start.value] + shown;
      rest := left;
      start := FindOpen(rest);
    }
    CopyText(rest, |rest|, env);
    assert rest[|rest|..] == "" && rest[..|rest|] == rest;
    result := result + rest;
  }

  /** Malformed placeholders included, a string none of whose variables is set is left alone. The
      reading of the string never depends on the environment, so inserted values are not rescanned. */
  lemma {:induction false} UnsetVariablesChangeNothing(s: string, env: Env)
    requires Names(Tokens(s)) !! env.Keys
    ensures Render(Tokens(s), env) == s
    decreases |s|
  {
    if s != "" {
      var (t, rest) := Head(s);
      HeadStep(s, env);
      HeadText(s);
      NamesCons(t, Tokens(rest));
      UnsetVariablesChangeNothing(rest, env);
    }
  }
}
