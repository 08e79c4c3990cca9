/** What `_file_type` computes, stated against the shape of the path. */
module FileTypeProperties {
  import opened Text
  import opened CodeStatistics

  /** Below a directory prefix (empty, or ending in a slash) the extension of a
      name without a slash is the extension of the name alone. */
  lemma SplitExtUnderDirectory(pre: string, name: string)
    requires pre == [] || pre[|pre| - 1] == '/'
    requires '/' !in name
    ensures Calculator.SplitExt(pre + name) == Calculator.SplitExt(name)
  {
    LastIndexOfUnique(name, '/', -1);
    LastIndexOfUnique(pre + name, '/', |pre| - 1);
    if LastIndexOf(name, '.') >= 0 {
      ExtensionInName(pre, name);
    } else {
      NoDotInName(pre, name);
      assert Calculator.SplitExt(name) == [];
      assert Calculator.SplitExt(pre + name) == [];
    }
  }

  lemma ExtensionInName(pre: string, name: string)
    requires LastIndexOf(name, '/') == -1 && LastIndexOf(pre + name, '/') == |pre| - 1
    requires LastIndexOf(name, '.') >= 0
    ensures Calculator.SplitExt(pre + name) == Calculator.SplitExt(name)
  {
    var dotN := LastIndexOf(name, '.');
    LastIndexOfUnique(pre + name, '.', |pre| + dotN);
    var p := pre + name;
    assert p[|pre| + dotN..] == name[dotN..];
    assert forall i :: 0 <= i < dotN ==> p[|pre| + i] == name[i];
    assert DotsBetween(p, |pre|, |pre| + dotN) <==> DotsBetween(name, 0, dotN) by {
      if DotsBetween(name, 0, dotN) {
        forall i | |pre| <= i < |pre| + dotN ensures p[i] == '.' {
          assert p[i] == name[i - |pre|];
        }
      }
    }
  }

  /** A name without a dot leaves the last dot of the path in the directory part. */
  lemma NoDotInName(pre: string, name: string)
    requires '.' !in name
    ensures LastIndexOf(pre + name, '.') < |pre|
  {
    var p := pre + name;
    var k := LastIndexOf(pre, '.');
    forall i | k < i < |p| ensures p[i] != '.' {
      if i >= |pre| {
        assert p[i] == name[i - |pre|];
      }
    }
    LastIndexOfUnique(p, '.', k);
  }

  /** The directory a walk yields a file name in does not change the file's type. */
  lemma FileTypeIgnoresDirectory(directory: string, name: string)
    requires '/' !in name
    ensures Calculator.FileType(JoinPath(directory, name)) == Calculator.FileType(name)
  {
    if directory == [] || directory[|directory| - 1] == '/' {
      SplitExtUnderDirectory(directory, name);
    } else {
      var pre := directory + "/";
      assert JoinPath(directory, name) == pre + name;
      SplitExtUnderDirectory(pre, name);
    }
  }

  /** A name `stem.ext` whose stem holds something other than dots: the type is the
      extension, lower-cased. */
  lemma FileTypeOfExtension(stem: string, ext: string)
    requires '/' !in stem && '/' !in ext && '.' !in ext
    requires !AllDots(stem)
    ensures Calculator.FileType(stem + "." + ext) == Lower(ext)
  {
    ExtensionOfStem(stem, ext);
    assert ("." + ext)[1..] == ext;
  }

  lemma ExtensionOfStem(stem: string, ext: string)
    requires '/' !in stem && '/' !in ext && '.' !in ext
    requires !AllDots(stem)
    ensures Calculator.SplitExt(stem + "." + ext) == "." + ext
  {
    var p := stem + "." + ext;
    LastIndexOfUnique(p, '/', -1);
    LastIndexOfUnique(p, '.', |stem|);
    var i :| 0 <= i < |stem| && stem[i] != '.';
    assert p[i] == stem[i];
    assert p[|stem|..] == "." + ext;
  }

  /** A name made of dots and then `.ext` (such as `.bashrc`) has no type. */
  lemma FileTypeOfDotfile(dots: string, ext: string)
    requires AllDots(dots)
    requires '/' !in ext && '.' !in ext
    ensures Calculator.FileType(dots + "." + ext) == []
  {
    var p := dots + "." + ext;
    LastIndexOfUnique(p, '/', -1);
    LastIndexOfUnique(p, '.', |dots|);
    assert forall i :: 0 <= i < |dots| ==> p[i] == dots[i];
    assert Calculator.SplitExt(p) == [];
  }

  /** Together: a file walked in any directory is typed by the extension of its name. */
  lemma FileTypeOfWalkedFile(directory: string, stem: string, ext: string)
    requires '/' !in stem && '/' !in ext && '.' !in ext
    requires !AllDots(stem)
    ensures Calculator.FileType(JoinPath(directory, stem + "." + ext)) == Lower(ext)
  {
    FileTypeIgnoresDirectory(directory, stem + "." + ext);
    FileTypeOfExtension(stem, ext);
  }
}
