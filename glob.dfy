/** The `*.[hc]` glob with which the builder collects the headers and C sources
    beside the skeleton's input file. Only the matching of one directory entry's
    name against the pattern is modelled; the directory listing is a parameter. */
module Glob {

  /** One item of a glob pattern: `*`, a literal character, or a class `[..]`. */
  datatype Item = AnyRun | Literal(c: char) | OneOf(chars: set<char>)

  /** `name` matches `pattern` as a whole (the glob crate's defaults: `*` matches
      any run of characters, a leading dot included). */
  predicate Matches(pattern: seq<Item>, name: string)
    decreases |pattern| + |name|
  {
    if pattern == [] then name == []
    else match pattern[0]
      case AnyRun => Matches(pattern[1..], name) || (name != [] && Matches(pattern, name[1..]))
      case Literal(c) => name != [] && name[0] == c && Matches(pattern[1..], name[1..])
      case OneOf(cs) => name != [] && name[0] in cs && Matches(pattern[1..], name[1..])
  }

  /** The pattern `*.[hc]`. */
  const HeaderOrSourcePattern: seq<Item> := [AnyRun, Literal('.'), OneOf({'h', 'c'})]

  predicate IsHeaderOrSource(name: string) {
    Matches(HeaderOrSourcePattern, name)
  }

  /** `name` ends in `.h` or `.c`. */
  predicate HasHeaderOrSourceSuffix(name: string) {
    |name| >= 2 && name[|name| - 2] == '.' && (name[|name| - 1] == 'h' || name[|name| - 1] == 'c')
  }

  /** A name matches `*.[hc]` exactly when it ends in `.h` or `.c`. */
  lemma {:induction false} HeaderOrSourceBySuffix(name: string)
    ensures IsHeaderOrSource(name) <==> HasHeaderOrSourceSuffix(name)
    decreases |name|
  {
    var p := HeaderOrSourcePattern;
    var dotClass := p[1..];
    assert dotClass == [Literal('.'), OneOf({'h', 'c'})];
    assert dotClass[1..] == [OneOf({'h', 'c'})];
    assert Matches(dotClass, name) <==> |name| == 2 && HasHeaderOrSourceSuffix(name) by {
      if name != [] {
        assert Matches(dotClass, name) == (name[0] == '.' && Matches(dotClass[1..], name[1..]));
        if name[1..] != [] {
          assert Matches(dotClass[1..], name[1..]) ==
                 (name[1] in {'h', 'c'} && Matches(dotClass[1..][1..], name[2..]));
        }
      }
    }
    if name != [] {
      HeaderOrSourceBySuffix(name[1..]);
      if |name| == 2 {
        assert !HasHeaderOrSourceSuffix(name[1..]);
      }
      if |name| > 2 {
        assert name[1..][|name| - 3] == name[|name| - 2];
        assert name[1..][|name| - 2] == name[|name| - 1];
      }
    }
  }

  /** The paths that globbing for `*.[hc]` inside `dir` yields when the
      directory `dir` holds `entries`: one `dir/name` per matching entry. */
  function GlobHeaderOrSource(dir: string, entries: seq<string>): (paths: seq<string>)
    ensures forall p :: p in paths <==> exists e :: e in entries && IsHeaderOrSource(e) && p == dir + "/" + e
    decreases |entries|
  {
    if entries == [] then []
    else
      var rest := GlobHeaderOrSource(dir, entries[1..]);
      var here := if IsHeaderOrSource(entries[0]) then [dir + "/" + entries[0]] else [];
      assert forall e :: e in entries <==> e == entries[0] || e in entries[1..];
      here + rest
  }
}
