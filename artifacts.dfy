/** The names of the files the builder writes and the argument lists it hands to
    the external tools. Paths are text: `Join(dir, name)` is `dir/name`. */
module Artifacts {

  function Join(dir: string, name: string): string {
    dir + "/" + name
  }

  /** `{name}.bpf.o` in the output directory: the compiled (or linked) program. */
  function ObjPath(outDir: string, name: string): string {
    Join(outDir, name + ".bpf.o")
  }

  /** `{name}_skel.rs` in the output directory: the generated skeleton. */
  function SkelPath(outDir: string, name: string): string {
    Join(outDir, name + "_skel.rs")
  }

  /** The arguments bindgen passes to clang: the compilation flags, then the BPF target. */
  function BindgenArgs(cflags: seq<string>): (args: seq<string>)
    ensures |args| == |cflags| + 2
    ensures args[..|cflags|] == cflags
    ensures args[|cflags|..] == ["-target", "bpf"]
  {
    cflags + ["-target", "bpf"]
  }

  /** `pattern` occurs somewhere in `s`. */
  predicate Occurs(pattern: string, s: string) {
    exists i :: 0 <= i <= |s| && pattern <= s[i..]
  }

  /** Rust's `str::replace`: every non-overlapping occurrence of `from`, scanning
      from the left, replaced by `to`. */
  function Replace(s: string, from: string, to: string): string
    requires from != []
    decreases |s|
  {
    if s == [] then []
    else if from <= s then to + Replace(s[|from|..], from, to)
    else [s[0]] + Replace(s[1..], from, to)
  }

  /** The object path `compile_link_gen` uses for every source: derived from the
      skeleton name (not from the source), with `.bpf.c` replaced by `.bpf.o`. */
  function SourceObjPath(outDir: string, name: string): string {
    Join(outDir, Replace(name, ".bpf.c", ".bpf.o"))
  }

  /** The object file and the skeleton never share a path, whatever the names. */
  lemma ObjNeverSkel(outDir: string, name: string, other: string)
    ensures ObjPath(outDir, name) != SkelPath(outDir, other)
  {
    var o, k := ObjPath(outDir, name), SkelPath(outDir, other);
    assert o[|o| - 1] == 'o';
    assert k[|k| - 1] == 's';
  }

  /** Different skeleton names give different object files. */
  lemma ObjPathInjective(outDir: string, name: string, other: string)
    requires ObjPath(outDir, name) == ObjPath(outDir, other)
    ensures name == other
  {
    var o := ObjPath(outDir, name);
    assert |name| == |other|;
    assert name == o[|outDir| + 1..|outDir| + 1 + |name|];
    assert other == o[|outDir| + 1..|outDir| + 1 + |other|];
  }

  /** Replacing by a text of the same length keeps the length. */
  lemma {:induction false} ReplaceKeepsLength(s: string, from: string, to: string)
    requires from != [] && |from| == |to|
    ensures |Replace(s, from, to)| == |s|
    decreases |s|
  {
    if s != [] {
      if from <= s {
        ReplaceKeepsLength(s[|from|..], from, to);
      } else {
        ReplaceKeepsLength(s[1..], from, to);
      }
    }
  }

  /** Where `from` does not occur, replacing changes nothing. */
  lemma {:induction false} ReplaceAbsent(s: string, from: string, to: string)
    requires from != [] && !Occurs(from, s)
    ensures Replace(s, from, to) == s
    decreases |s|
  {
    if s != [] {
      assert s[0..] == s;
      assert !(from <= s);
      assert !Occurs(from, s[1..]) by {
        forall i | 0 <= i <= |s[1..]| ensures !(from <= s[1..][i..]) {
          assert s[1..][i..] == s[i + 1..];
        }
      }
      ReplaceAbsent(s[1..], from, to);
      assert s == [s[0]] + s[1..];
    }
  }

  /** The object `compile_link_gen` compiles each source into is never the linked
      object it produces: the first is as long as `out_dir/name`, the second is
      six characters longer. */
  lemma SourceObjNeverLinkObj(outDir: string, name: string)
    ensures SourceObjPath(outDir, name) != ObjPath(outDir, name)
  {
    ReplaceKeepsLength(name, ".bpf.c", ".bpf.o");
  }

  /** For a skeleton name without `.bpf.c` in it, such as `bpf`, every source is
      compiled into the file `out_dir/name` itself. */
  lemma SourceObjPlainName(outDir: string, name: string)
    requires !Occurs(".bpf.c", name)
    ensures SourceObjPath(outDir, name) == Join(outDir, name)
  {
    ReplaceAbsent(name, ".bpf.c", ".bpf.o");
  }
}
