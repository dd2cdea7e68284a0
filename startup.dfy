/**
 * Loading the system prompt at startup: the `*.txt` files of the prompts
 * directory, sorted by path, their texts joined by a blank line. The
 * directory is given as the list of its entries, in whatever order the
 * file system lists them.
 */
module Startup {
  import opened Wrappers
  import opened Text

  /** One entry of the prompts directory: its file name and its text. */
  datatype PromptFile = PromptFile(name: string, content: string)

  /** The error raised when there is no prompt file (a RuntimeError). */
  datatype StartupError = NoPromptFiles

  const PromptSuffix := ".txt"
  const FragmentSeparator := "\n\n"

  /** Matched by the pattern `*.txt`. */
  predicate IsPromptFile(f: PromptFile)
  {
    EndsWith(f.name, PromptSuffix)
  }

  /** No two entries share a name, as in any directory. */
  predicate NamesDistinct(fs: seq<PromptFile>)
  {
    forall i, j :: 0 <= i < j < |fs| ==> fs[i].name != fs[j].name
  }

  /** Strictly ascending by name. */
  predicate SortedByName(fs: seq<PromptFile>)
  {
    forall i, j :: 0 <= i < j < |fs| ==> Below(fs[i].name, fs[j].name)
  }

  /** `prompts_dir.glob("*.txt")`: the prompt files, in listing order. */
  function PromptFiles(dir: seq<PromptFile>): seq<PromptFile>
  {
    if dir == [] then []
    else if IsPromptFile(dir[0]) then [dir[0]] + PromptFiles(dir[1..])
    else PromptFiles(dir[1..])
  }

  /** Inserts `f` before the first entry whose name is above its own, passing entries with an equal name. */
  function Insert(f: PromptFile, sorted: seq<PromptFile>): seq<PromptFile>
  {
    if sorted == [] || Below(f.name, sorted[0].name) then [f] + sorted
    else [sorted[0]] + Insert(f, sorted[1..])
  }

  /** `sorted(...)` on the paths of one directory: ascending by name. */
  function SortByName(fs: seq<PromptFile>): seq<PromptFile>
  {
    if fs == [] then [] else Insert(fs[0], SortByName(fs[1..]))
  }

  /** The prompt files in the order their texts are concatenated. */
  function Fragments(dir: seq<PromptFile>): seq<PromptFile>
  {
    SortByName(PromptFiles(dir))
  }

  /** The texts of the files, in order. */
  function Contents(fs: seq<PromptFile>): (r: seq<string>)
  {
    seq(|fs|, i requires 0 <= i < |fs| => fs[i].content)
  }

  /** What `load_prompt_on_startup` returns, or raises, for a directory. */
  function SystemPrompt(dir: seq<PromptFile>): Result<string, StartupError>
  {
    var files := Fragments(dir);
    if files == [] then Failure(NoPromptFiles) else Success(Join(Contents(files), FragmentSeparator))
  }

  /** There are fragments exactly when the directory holds a prompt file. */
  lemma FragmentsEmpty(dir: seq<PromptFile>)
    ensures Fragments(dir) == [] <==> forall f :: f in dir ==> !IsPromptFile(f)
  {
    var files := PromptFiles(dir);
    PromptFilesCount(dir);
    SortByNamePermutes(files);
    if Fragments(dir) == [] {
      assert |multiset(files)| == 0;
      forall f | f in dir ensures !IsPromptFile(f) {
        assert multiset(dir)[f] > 0;
        assert multiset(files)[f] == 0;
      }
    } else {
      var f := Fragments(dir)[0];
      assert f in multiset(files);
      assert multiset(files)[f] > 0;
    }
  }

  /**
   * Reads the prompt files in sorted order and joins their texts; fails
   * when there are none.
   */
  method LoadPromptOnStartup(promptsDir: seq<PromptFile>) returns (r: Result<string, StartupError>)
    ensures r == SystemPrompt(promptsDir)
    ensures r.Failure? <==> forall f :: f in promptsDir ==> !IsPromptFile(f)
  {
    var promptParts: seq<string> := [];
    var sortedPromptFiles := SortByName(PromptFiles(promptsDir));
    FragmentsEmpty(promptsDir);
    if sortedPromptFiles == [] {
      return Failure(NoPromptFiles);
    }
    for i := 0 to |sortedPromptFiles|
      invariant promptParts == Contents(sortedPromptFiles[..i])
    {
      promptParts := promptParts + [sortedPromptFiles[i].content];
    }
    assert sortedPromptFiles[..|sortedPromptFiles|] == sortedPromptFiles;
    return Success(Join(promptParts, FragmentSeparator));
  }

  // ---------------------------------------------------------------------
  // Filtering and sorting
  // ---------------------------------------------------------------------

  /** The glob keeps every prompt file as often as it is listed, and nothing else. */
  lemma {:induction false} PromptFilesCount(dir: seq<PromptFile>)
    ensures forall f :: multiset(PromptFiles(dir))[f] == if IsPromptFile(f) then multiset(dir)[f] else 0
  {
    if dir != [] {
      PromptFilesCount(dir[1..]);
      assert dir == [dir[0]] + dir[1..];
    }
  }

  /** Inserting adds exactly the one file. */
  lemma {:induction false} InsertCount(f: PromptFile, sorted: seq<PromptFile>)
    ensures multiset(Insert(f, sorted)) == multiset(sorted) + multiset{f}
  {
    if sorted != [] && !Below(f.name, sorted[0].name) {
      InsertCount(f, sorted[1..]);
      assert sorted == [sorted[0]] + sorted[1..];
    }
  }

  /** Sorting is a permutation. */
  lemma {:induction false} SortByNamePermutes(fs: seq<PromptFile>)
    ensures multiset(SortByName(fs)) == multiset(fs)
  {
    if fs != [] {
      SortByNamePermutes(fs[1..]);
      InsertCount(fs[0], SortByName(fs[1..]));
      assert fs == [fs[0]] + fs[1..];
    }
  }

  /** Every entry of `fs` has a name above `name`. */
  predicate AllAbove(name: string, fs: seq<PromptFile>)
  {
    forall g :: g in fs ==> Below(name, g.name)
  }

  /** Putting an entry below all others in front of a sorted list keeps it sorted. */
  lemma SortedCons(x: PromptFile, fs: seq<PromptFile>)
    requires SortedByName(fs) && AllAbove(x.name, fs)
    ensures SortedByName([x] + fs)
  {
    var r := [x] + fs;
    forall i, j | 0 <= i < j < |r| ensures Below(r[i].name, r[j].name) {
      assert r[j] == fs[j - 1];
      if i > 0 {
        assert r[i] == fs[i - 1];
      }
    }
  }

  /** Inserting a file with a new name into a sorted list keeps it sorted. */
  lemma {:induction false} InsertSorted(f: PromptFile, sorted: seq<PromptFile>)
    requires SortedByName(sorted)
    requires forall g :: g in sorted ==> g.name != f.name
    ensures SortedByName(Insert(f, sorted))
  {
    if sorted == [] {
    } else if Below(f.name, sorted[0].name) {
      forall g | g in sorted ensures Below(f.name, g.name) {
        if g != sorted[0] {
          SortedHeadFirst(sorted, g);
          BelowTransitive(f.name, sorted[0].name, g.name);
        }
      }
      SortedCons(f, sorted);
    } else {
      var head, tail := sorted[0], sorted[1..];
      var rest := Insert(f, tail);
      InsertSorted(f, tail);
      InsertCount(f, tail);
      BelowTotal(f.name, head.name);
      forall g | g in rest ensures Below(head.name, g.name) {
        assert g in multiset(rest);
        if g != f {
          assert g in tail;
          var k :| 0 <= k < |tail| && tail[k] == g;
          assert sorted[k + 1] == g;
        }
      }
      SortedCons(head, rest);
    }
  }

  /** Sorting files with distinct names yields a strictly ascending list. */
  lemma {:induction false} SortByNameSorted(fs: seq<PromptFile>)
    requires NamesDistinct(fs)
    ensures SortedByName(SortByName(fs))
  {
    if fs != [] {
      var rest := SortByName(fs[1..]);
      SortByNameSorted(fs[1..]);
      SortByNamePermutes(fs[1..]);
      forall g | g in rest ensures g.name != fs[0].name {
        assert g in multiset(fs[1..]);
        var k :| 0 <= k < |fs[1..]| && fs[1..][k] == g;
        assert fs[k + 1] == g;
      }
      InsertSorted(fs[0], rest);
    }
  }

  /** In a strictly sorted list, the first entry is below every other entry. */
  lemma SortedHeadFirst(s: seq<PromptFile>, x: PromptFile)
    requires SortedByName(s) && x in s && x != s[0]
    ensures Below(s[0].name, x.name)
  {
    var k :| 0 <= k < |s| && s[k] == x;
  }

  /** Two strictly sorted lists with the same elements are the same list. */
  lemma {:induction false} SortedUnique(s: seq<PromptFile>, t: seq<PromptFile>)
    requires SortedByName(s) && SortedByName(t)
    requires multiset(s) == multiset(t)
    ensures s == t
  {
    assert |s| == |multiset(s)| == |multiset(t)| == |t|;
    if s != [] {
      assert s[0] in multiset(t) && t[0] in multiset(s);
      if s[0] != t[0] {
        SortedHeadFirst(s, t[0]);
        SortedHeadFirst(t, s[0]);
        BelowAsymmetric(s[0].name, t[0].name);
        assert false;
      }
      assert s == [s[0]] + s[1..] && t == [t[0]] + t[1..];
      assert multiset(s[1..]) == multiset(s) - multiset{s[0]};
      assert multiset(t[1..]) == multiset(t) - multiset{s[0]};
      SortedUnique(s[1..], t[1..]);
    }
  }

  /** Filtering keeps names distinct. */
  lemma {:induction false} PromptFilesDistinct(dir: seq<PromptFile>)
    requires NamesDistinct(dir)
    ensures NamesDistinct(PromptFiles(dir))
  {
    if dir != [] {
      PromptFilesDistinct(dir[1..]);
      PromptFilesCount(dir[1..]);
      var rest := PromptFiles(dir[1..]);
      if IsPromptFile(dir[0]) {
        var r := [dir[0]] + rest;
        forall i, j | 0 <= i < j < |r| ensures r[i].name != r[j].name {
          if i == 0 {
            assert r[j] in multiset(rest);
            assert r[j] in multiset(dir[1..]);
            var k :| 0 <= k < |dir[1..]| && dir[1..][k] == r[j];
            assert dir[k + 1] == r[j];
          } else {
            assert r[i] == rest[i - 1] && r[j] == rest[j - 1];
          }
        }
      }
    }
  }

  /** Filtering distributes over concatenation of listings. */
  lemma {:induction false} PromptFilesAppend(a: seq<PromptFile>, b: seq<PromptFile>)
    ensures PromptFiles(a + b) == PromptFiles(a) + PromptFiles(b)
  {
    if a != [] {
      assert (a + b)[1..] == a[1..] + b;
      PromptFilesAppend(a[1..], b);
    } else {
      assert a + b == b;
    }
  }

  // ---------------------------------------------------------------------
  // What the loaded prompt is
  // ---------------------------------------------------------------------

  /**
   * The fragments are exactly the prompt files of the directory, each once,
   * in strictly ascending name order.
   */
  lemma FragmentsAreThePromptFiles(dir: seq<PromptFile>)
    requires NamesDistinct(dir)
    ensures SortedByName(Fragments(dir))
    ensures forall f :: f in Fragments(dir) <==> f in dir && IsPromptFile(f)
    ensures NamesDistinct(Fragments(dir))
  {
    PromptFilesDistinct(dir);
    SortByNameSorted(PromptFiles(dir));
    PromptFilesCount(dir);
    SortByNamePermutes(PromptFiles(dir));
    var fr := Fragments(dir);
    forall f ensures f in fr <==> f in dir && IsPromptFile(f) {
      assert f in fr <==> f in multiset(fr);
      assert f in dir <==> f in multiset(dir);
    }
    forall i, j | 0 <= i < j < |fr| ensures fr[i].name != fr[j].name {
      BelowIrreflexive(fr[i].name);
    }
  }

  /**
   * The order in which the directory lists its entries does not matter:
   * two listings of the same entries load the same prompt.
   */
  lemma ListingOrderIrrelevant(d1: seq<PromptFile>, d2: seq<PromptFile>)
    requires NamesDistinct(d1) && NamesDistinct(d2)
    requires multiset(d1) == multiset(d2)
    ensures SystemPrompt(d1) == SystemPrompt(d2)
  {
    PromptFilesDistinct(d1);
    PromptFilesDistinct(d2);
    SortByNameSorted(PromptFiles(d1));
    SortByNameSorted(PromptFiles(d2));
    PromptFilesCount(d1);
    PromptFilesCount(d2);
    assert multiset(PromptFiles(d1)) == multiset(PromptFiles(d2));
    SortByNamePermutes(PromptFiles(d1));
    SortByNamePermutes(PromptFiles(d2));
    SortedUnique(Fragments(d1), Fragments(d2));
  }

  /** Files that do not match `*.txt` never change the prompt, wherever they are listed. */
  lemma OtherFilesIgnored(dir: seq<PromptFile>, i: nat, f: PromptFile)
    requires i <= |dir|
    requires !IsPromptFile(f)
    ensures SystemPrompt(dir[..i] + [f] + dir[i..]) == SystemPrompt(dir)
  {
    var before, after := dir[..i], dir[i..];
    PromptFilesAppend(before + [f], after);
    PromptFilesAppend(before, [f]);
    PromptFilesAppend(before, after);
    assert [f][1..] == [];
    assert PromptFiles([f]) == [];
    assert before + after == dir;
    assert PromptFiles(before + [f] + after) == PromptFiles(dir);
  }

  /**
   * Where each fragment lands: the text of the i-th file in sorted order
   * occupies its place in the prompt, followed by the blank-line separator
   * unless it is the last.
   */
  lemma FragmentPlacement(dir: seq<PromptFile>, i: nat)
    requires i < |Fragments(dir)|
    ensures SystemPrompt(dir).Success?
    ensures var parts := Contents(Fragments(dir));
            var o := Offset(parts, FragmentSeparator, i);
            var prompt := SystemPrompt(dir).value;
            && o + |parts[i]| <= |prompt|
            && prompt[o..o + |parts[i]|] == Fragments(dir)[i].content
            && (i + 1 < |parts| ==>
                  && o + |parts[i]| + |FragmentSeparator| <= |prompt|
                  && prompt[o + |parts[i]|..o + |parts[i]| + |FragmentSeparator|] == FragmentSeparator)
  {
    var parts := Contents(Fragments(dir));
    assert SystemPrompt(dir) == Success(Join(parts, FragmentSeparator));
    JoinPart(parts, FragmentSeparator, i);
    if i + 1 < |parts| {
      JoinSeparator(parts, FragmentSeparator, i);
    }
  }

  /** n fragments give the n texts plus exactly n - 1 separators. */
  lemma PromptLength(dir: seq<PromptFile>)
    requires Fragments(dir) != []
    ensures SystemPrompt(dir).Success?
    ensures |SystemPrompt(dir).value|
         == TotalLength(Contents(Fragments(dir))) + (|Fragments(dir)| - 1) * |FragmentSeparator|
  {
    JoinLength(Contents(Fragments(dir)), FragmentSeparator);
  }

  /** A single prompt file is returned unchanged. */
  lemma SingleFragment(dir: seq<PromptFile>, f: PromptFile)
    requires PromptFiles(dir) == [f]
    ensures SystemPrompt(dir) == Success(f.content)
  {
    assert SortByName([f]) == Insert(f, []);
    assert Contents([f]) == [f.content];
  }
}
