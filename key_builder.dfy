/**
 The cache key of a session: one string built from the context path, the
 virtual host and the session id. Each component is escaped (`\` and `_` are
 preceded by `\`) and the three are joined by `_`, so the key can be parsed
 back into its components and distinct triples never share a key.
 */
module KeyBuilder {
  import opened Sessions

  const Separator: char := '_'
  const EscapeMark: char := '\\'

  function EscapeChar(c: char): string
  {
    if c == EscapeMark || c == Separator then [EscapeMark, c] else [c]
  }

  function Escape(s: string): string
  {
    if s == [] then [] else EscapeChar(s[0]) + Escape(s[1..])
  }

  /** InfinispanKeyBuilder.build(contextPath, vhost, id). */
  function Build(contextPath: string, vhost: string, id: string): string
  {
    Escape(contextPath) + [Separator] + Escape(vhost) + [Separator] + Escape(id)
  }

  /** Reads one escaped component up to the first unescaped separator and
      returns it with what follows the separator. */
  function ReadField(k: string): Option<(string, string)>
    decreases |k|
  {
    if k == [] then None
    else if k[0] == Separator then Some(([], k[1..]))
    else if k[0] == EscapeMark then
      if |k| < 2 then None
      else match ReadField(k[2..])
        case None => None
        case Some(p) => Some(([k[1]] + p.0, p.1))
    else match ReadField(k[1..])
      case None => None
      case Some(p) => Some(([k[0]] + p.0, p.1))
  }

  /** Reads the last escaped component, which runs to the end of the key. */
  function ReadLast(k: string): Option<string>
    decreases |k|
  {
    if k == [] then Some([])
    else if k[0] == Separator then None
    else if k[0] == EscapeMark then
      if |k| < 2 then None
      else match ReadLast(k[2..])
        case None => None
        case Some(s) => Some([k[1]] + s)
    else match ReadLast(k[1..])
      case None => None
      case Some(s) => Some([k[0]] + s)
  }

  /** The (contextPath, vhost, id) triple a key was built from, if any. */
  function Parse(k: string): Option<(string, string, string)>
  {
    match ReadField(k)
    case None => None
    case Some(f1) =>
      match ReadField(f1.1)
      case None => None
      case Some(f2) =>
        match ReadLast(f2.1)
        case None => None
        case Some(id) => Some((f1.0, f2.0, id))
  }

  lemma {:induction false} ReadFieldEscape(s: string, rest: string)
    ensures ReadField(Escape(s) + [Separator] + rest) == Some((s, rest))
    decreases |s|
  {
    var k := Escape(s) + [Separator] + rest;
    if s != [] {
      var tail := Escape(s[1..]) + [Separator] + rest;
      assert k == EscapeChar(s[0]) + tail;
      ReadFieldEscape(s[1..], rest);
      if s[0] == EscapeMark || s[0] == Separator {
        assert k[2..] == tail;
      } else {
        assert k[1..] == tail;
      }
      assert [s[0]] + s[1..] == s;
    }
  }

  lemma {:induction false} ReadLastEscape(s: string)
    ensures ReadLast(Escape(s)) == Some(s)
    decreases |s|
  {
    if s != [] {
      var k := Escape(s);
      ReadLastEscape(s[1..]);
      if s[0] == EscapeMark || s[0] == Separator {
        assert k[2..] == Escape(s[1..]);
      } else {
        assert k[1..] == Escape(s[1..]);
      }
      assert [s[0]] + s[1..] == s;
    }
  }

  /** Every key built from a triple parses back to that triple. */
  lemma ParseBuild(contextPath: string, vhost: string, id: string)
    ensures Parse(Build(contextPath, vhost, id)) == Some((contextPath, vhost, id))
  {
    var rest := Escape(vhost) + [Separator] + Escape(id);
    assert Build(contextPath, vhost, id) == Escape(contextPath) + [Separator] + rest;
    ReadFieldEscape(contextPath, rest);
    ReadFieldEscape(vhost, Escape(id));
    ReadLastEscape(id);
  }

  /** Distinct (contextPath, vhost, id) triples never share a cache key. */
  lemma BuildInjective(c1: string, v1: string, i1: string, c2: string, v2: string, i2: string)
    requires Build(c1, v1, i1) == Build(c2, v2, i2)
    ensures c1 == c2 && v1 == v2 && i1 == i2
  {
    ParseBuild(c1, v1, i1);
    ParseBuild(c2, v2, i2);
  }
}
