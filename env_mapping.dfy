/**
 * The callback handed to the environment-variable provider (config.go:94-105):
 * a variable name becomes a configuration path, and a comma-bearing value
 * becomes a list of strings.
 */
module EnvMapping {

  /** A value produced by the callback: the raw string or its comma-split pieces. */
  datatype EnvValue = Scalar(text: string) | List(items: seq<string>)

  /** ASCII lower-casing of one character; every other character is left alone. */
  function LowerChar(c: char): (r: char)
    ensures 'A' <= c <= 'Z' ==> 'a' <= r <= 'z' && r as int - c as int == 32
    ensures !('A' <= c <= 'Z') ==> r == c
  {
    if 'A' <= c <= 'Z' then (c as int + 32) as char else c
  }

  /** strings.ToLower, restricted to the ASCII letters. */
  function ToLower(s: string): (r: string)
    ensures |r| == |s|
    ensures forall i :: 0 <= i < |s| ==> r[i] == LowerChar(s[i])
  {
    if s == [] then [] else [LowerChar(s[0])] + ToLower(s[1..])
  }

  /** strings.Replace(s, from, to, -1) for one-character strings. */
  function ReplaceAll(s: string, from: char, to: char): (r: string)
    ensures |r| == |s|
    ensures forall i :: 0 <= i < |s| ==> r[i] == if s[i] == from then to else s[i]
  {
    if s == [] then [] else [if s[0] == from then to else s[0]] + ReplaceAll(s[1..], from, to)
  }

  /** The configuration path a variable name maps to (config.go:96). */
  function EnvKey(name: string): (key: string)
    ensures |key| == |name|
    ensures '_' !in key
    ensures forall i :: 0 <= i < |name| ==> key[i] == if name[i] == '_' then '.' else LowerChar(name[i])
    ensures forall i :: 0 <= i < |key| ==> !('A' <= key[i] <= 'Z')
  {
    ReplaceAll(ToLower(name), '_', '.')
  }

  /** The worked example of the mapping: KAFKA_BROKERS addresses kafka.brokers. */
  lemma EnvKeyExample(name: string)
    requires name == "KAFKA_BROKERS"
    ensures EnvKey(name) == "kafka.brokers"
  {
  }

  /** A path already produced by the mapping maps to itself. */
  lemma EnvKeyIdempotent(name: string)
    ensures EnvKey(EnvKey(name)) == EnvKey(name)
  {
  }

  /** The number of occurrences of `c` in `s`. */
  function Count(s: string, c: char): nat
  {
    if s == [] then 0 else (if s[0] == c then 1 else 0) + Count(s[1..], c)
  }

  lemma {:induction false} CountZero(s: string, c: char)
    ensures Count(s, c) == 0 <==> c !in s
  {
    if s != [] {
      CountZero(s[1..], c);
      assert c in s <==> s[0] == c || c in s[1..];
    }
  }

  /** strings.Join(pieces, [sep]). */
  function Join(pieces: seq<string>, sep: char): string
  {
    if |pieces| == 0 then ""
    else if |pieces| == 1 then pieces[0]
    else pieces[0] + [sep] + Join(pieces[1..], sep)
  }

  /**
   * strings.Split(s, [sep]): one piece more than there are separators, no
   * piece holds the separator, and joining the pieces gives `s` back.
   */
  function Split(s: string, sep: char): (pieces: seq<string>)
    ensures |pieces| == Count(s, sep) + 1
    ensures Join(pieces, sep) == s
    ensures forall i :: 0 <= i < |pieces| ==> sep !in pieces[i]
  {
    if s == [] then [""]
    else
      var rest := Split(s[1..], sep);
      if s[0] == sep then
        assert ([""] + rest)[1..] == rest;
        [""] + rest
      else
        var pieces := [[s[0]] + rest[0]] + rest[1..];
        assert pieces[1..] == rest[1..];
        assert |rest| > 1 ==> Join(rest, sep) == rest[0] + [sep] + Join(rest[1..], sep);
        assert s == [s[0]] + s[1..];
        pieces
  }

  /** A string without the separator splits into itself alone. */
  lemma SplitWithoutSeparator(s: string, sep: char)
    requires sep !in s
    ensures Split(s, sep) == [s]
  {
  }

  /** Splitting `p + [sep] + t`, where `p` holds no separator, yields `p` first. */
  lemma {:induction false} SplitAfterPiece(p: string, sep: char, t: string)
    requires sep !in p
    ensures Split(p + [sep] + t, sep) == [p] + Split(t, sep)
  {
    var s := p + [sep] + t;
    if p == [] {
      assert s[0] == sep && s[1..] == t;
    } else {
      assert s[0] == p[0] && s[1..] == p[1..] + [sep] + t;
      SplitAfterPiece(p[1..], sep, t);
      assert [p[0]] + p[1..] == p;
    }
  }

  /** Split inverts Join on separator-free pieces: the list round trip. */
  lemma {:induction false} SplitJoin(pieces: seq<string>, sep: char)
    requires |pieces| > 0
    requires forall i :: 0 <= i < |pieces| ==> sep !in pieces[i]
    ensures Split(Join(pieces, sep), sep) == pieces
  {
    if |pieces| == 1 {
      SplitWithoutSeparator(pieces[0], sep);
    } else {
      SplitJoin(pieces[1..], sep);
      SplitAfterPiece(pieces[0], sep, Join(pieces[1..], sep));
      assert [pieces[0]] + pieces[1..] == pieces;
    }
  }

  /** The string a callback value stands for. */
  function Text(v: EnvValue): string
  {
    match v
    case Scalar(t) => t
    case List(items) => Join(items, ',')
  }

  /**
   * The callback itself (config.go:94-105): the key is EnvKey(name); a value
   * holding a comma becomes the list of its (commas + 1) pieces, any other
   * value stays the unaltered scalar.
   */
  function MapEnv(name: string, value: string): (r: (string, EnvValue))
    ensures r.0 == EnvKey(name)
    ensures r.1.List? <==> ',' in value
    ensures r.1.Scalar? ==> r.1.text == value
    ensures r.1.List? ==> |r.1.items| == Count(value, ',') + 1 >= 2
    ensures r.1.List? ==> forall i :: 0 <= i < |r.1.items| ==> ',' !in r.1.items[i]
    ensures Text(r.1) == value
  {
    if ',' in value then
      CountZero(value, ',');
      (EnvKey(name), List(Split(value, ',')))
    else (EnvKey(name), Scalar(value))
  }

  /** The callback applied to every variable of the environment, in order. */
  function EnvEntries(environ: seq<(string, string)>): (entries: seq<(string, EnvValue)>)
    ensures |entries| == |environ|
    ensures forall i :: 0 <= i < |environ| ==> entries[i] == MapEnv(environ[i].0, environ[i].1)
  {
    if environ == [] then []
    else [MapEnv(environ[0].0, environ[0].1)] + EnvEntries(environ[1..])
  }
}
