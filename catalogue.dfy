/** The variable catalogue: merging the name lists of several plot files into one
    ordered, duplicate-free master list (`mash`), and the tolerant lookup of a name in
    one file's list (`findIndex`), which answers a sentinel instead of failing. */
module Catalogue {

  /** The value `findIndex` answers for a name the file does not have. */
  const NotFound: int := -99

  predicate NoDuplicates(names: seq<string>) {
    forall i, j :: 0 <= i < j < |names| ==> names[i] != names[j]
  }

  /** The list `mash` leaves behind after going through `incoming` name by name:
      each name is appended unless the list built so far already holds it. */
  function Merge(master: seq<string>, incoming: seq<string>): seq<string>
    decreases |incoming|
  {
    if incoming == [] then master
    else
      var merged := Merge(master, incoming[..|incoming| - 1]);
      var name := incoming[|incoming| - 1];
      if name in merged then merged else merged + [name]
  }

  /** Reference definition of what a merge adds: the names of `incoming` that are
      neither in `master` nor earlier in `incoming`, in their order in `incoming`. */
  function Unseen(master: seq<string>, incoming: seq<string>): seq<string>
    decreases |incoming|
  {
    if incoming == [] then []
    else
      var earlier := incoming[..|incoming| - 1];
      var name := incoming[|incoming| - 1];
      Unseen(master, earlier) + (if name in master || name in earlier then [] else [name])
  }

  /** The merged list holds exactly the names of both lists. */
  lemma {:induction false} MergeContents(master: seq<string>, incoming: seq<string>)
    ensures forall name :: name in Merge(master, incoming) <==> name in master || name in incoming
    decreases |incoming|
  {
    if incoming != [] {
      var earlier := incoming[..|incoming| - 1];
      MergeContents(master, earlier);
      assert incoming == earlier + [incoming[|incoming| - 1]];
    }
  }

  /** A merge keeps `master` unchanged as a prefix and appends exactly the unseen
      names of `incoming`, in their order of first appearance there. */
  lemma {:induction false} MergeAppendsUnseen(master: seq<string>, incoming: seq<string>)
    ensures Merge(master, incoming) == master + Unseen(master, incoming)
    decreases |incoming|
  {
    if incoming != [] {
      var earlier := incoming[..|incoming| - 1];
      MergeAppendsUnseen(master, earlier);
      MergeContents(master, earlier);
    }
  }

  /** Merging into a duplicate-free list gives a duplicate-free list, even when
      `incoming` repeats a name. */
  lemma {:induction false} MergeNoDuplicates(master: seq<string>, incoming: seq<string>)
    requires NoDuplicates(master)
    ensures NoDuplicates(Merge(master, incoming))
    decreases |incoming|
  {
    if incoming != [] {
      MergeNoDuplicates(master, incoming[..|incoming| - 1]);
    }
  }

  /** `merge([A,B,C], [B,D,A]) == [A,B,C,D]`. */
  lemma MergeExample()
    ensures Merge(["A", "B", "C"], ["B", "D", "A"]) == ["A", "B", "C", "D"]
  {
    var master := ["A", "B", "C"];
    assert ["B", "D", "A"][..2] == ["B", "D"];
    assert ["B", "D"][..1] == ["B"];
    assert ["B"][..0] == [];
    assert Merge(master, ["B"]) == master;
    assert Merge(master, ["B", "D"]) == master + ["D"];
  }

  /** `mash(file1Names, file2Names)`: walks the second list and, for each name,
      searches the list built so far; the name is appended when the search finds
      nothing.  The source appends to its first argument; its one caller rebinds
      the master list to the result, so the model returns the extended list. */
  method Mash(file1Names: seq<string>, file2Names: seq<string>) returns (names: seq<string>)
    ensures names == Merge(file1Names, file2Names)
  {
    names := file1Names;
    for i := 0 to |file2Names|
      invariant names == Merge(file1Names, file2Names[..i])
    {
      var name := file2Names[i];
      var add := true;
      var j := 0;
      while j < |names|
        invariant 0 <= j <= |names|
        invariant add && name !in names[..j]
      {
        if name == names[j] {
          add := false;
          break;
        }
        assert names[..j + 1] == names[..j] + [names[j]];
        j := j + 1;
      }
      assert add ==> names[..j] == names;
      if add {
        names := names + [name];
      }
      assert file2Names[..i + 1][..i] == file2Names[..i];
    }
    assert file2Names[..|file2Names|] == file2Names;
  }

  /** The master list of a session: the merge of every loaded file's names, file by
      file, starting from the empty list. */
  function MasterOf(nameLists: seq<seq<string>>): seq<string>
    decreases |nameLists|
  {
    if nameLists == [] then []
    else Merge(MasterOf(nameLists[..|nameLists| - 1]), nameLists[|nameLists| - 1])
  }

  /** The master list is duplicate-free and names exactly the variables that some
      loaded file has. */
  lemma {:induction false} MasterOfSpec(nameLists: seq<seq<string>>)
    ensures NoDuplicates(MasterOf(nameLists))
    ensures forall name :: name in MasterOf(nameLists) <==>
              exists j :: 0 <= j < |nameLists| && name in nameLists[j]
    decreases |nameLists|
  {
    if nameLists != [] {
      var n := |nameLists| - 1;
      var earlier := nameLists[..n];
      MasterOfSpec(earlier);
      MergeNoDuplicates(MasterOf(earlier), nameLists[n]);
      MergeContents(MasterOf(earlier), nameLists[n]);
      forall name | name in MasterOf(nameLists)
        ensures exists j :: 0 <= j < |nameLists| && name in nameLists[j]
      {
        if name !in nameLists[n] {
          var j :| 0 <= j < n && name in earlier[j];
          assert name in nameLists[j];
        }
      }
      forall name, j | 0 <= j < |nameLists| && name in nameLists[j]
        ensures name in MasterOf(nameLists)
      {
        if j < n {
          assert name in earlier[j];
        }
      }
    }
  }

  /** `findIndex(var, names, jFile)`: where `var` first occurs in one file's name
      list, or `NotFound` when the file does not have it.  A miss is an answer,
      never an error. */
  function FindIndex(v: string, names: seq<string>): (index: int)
    ensures index == NotFound <==> v !in names
    ensures index != NotFound ==> 0 <= index < |names| && names[index] == v && v !in names[..index]
  {
    if names == [] then NotFound
    else if names[0] == v then 0
    else
      var rest := FindIndex(v, names[1..]);
      assert names == [names[0]] + names[1..];
      if rest == NotFound then NotFound
      else
        assert names[..rest + 1] == [names[0]] + names[1..][..rest];
        rest + 1
  }
}
