/** The path arithmetic of the image rename (renaming_script.py, lines 69-73):
    the parent folder is everything before the last '/', and the new name gets
    the original path's tail from its last '.' appended. */
module Destination {
  import opened PyJson

  /** Python's `s.rfind(c)`: the last index of `c` in `s`, or -1. */
  function RFind(s: string, c: char): (r: int)
    ensures -1 <= r < |s|
    ensures r >= 0 ==> s[r] == c
    ensures forall i :: r < i < |s| ==> s[i] != c
    decreases |s|
  {
    if s == [] then -1
    else if s[|s| - 1] == c then |s| - 1
    else RFind(s[..|s| - 1], c)
  }

  /** Python's `s[j:]`, where a negative `j` counts from the end. */
  function SliceFrom(s: string, j: int): string {
    if j < 0 then (if |s| + j < 0 then s else s[|s| + j..])
    else if j > |s| then []
    else s[j..]
  }

  /** The tail `img_path[img_path.rfind('.'):]` that line 71 appends. */
  function Suffix(imgPath: string): string {
    SliceFrom(imgPath, RFind(imgPath, '.'))
  }

  datatype Target = Target(parent: string, newName: string, newPath: string)

  /** Lines 69-73. None stands for the ValueError `rindex("/")` raises on a
      path with no '/'. */
  function ComputeTarget(imgPath: string, newName: string): Option<Target> {
    var slash := RFind(imgPath, '/');
    if slash < 0 then None
    else
      var parent := imgPath[..slash];
      var name := newName + Suffix(imgPath);
      Some(Target(parent, name, parent + "/" + name))
  }

  /** Any index meeting `RFind`'s contract is the one it returns. */
  lemma RFindUnique(s: string, c: char, i: int)
    requires -1 <= i < |s|
    requires i >= 0 ==> s[i] == c
    requires forall j :: i < j < |s| ==> s[j] != c
    ensures RFind(s, c) == i
  {
  }

  /** The tail taken from the original path: from its last '.' when it has
      one, and otherwise (rfind gives -1, and `[-1:]` is the last character)
      its last character alone. */
  lemma SuffixFromOriginal(imgPath: string)
    requires imgPath != []
    ensures '.' in imgPath ==>
              exists i :: 0 <= i < |imgPath| && imgPath[i] == '.' && Suffix(imgPath) == imgPath[i..] &&
                          forall j :: i < j < |imgPath| ==> imgPath[j] != '.'
    ensures '.' !in imgPath ==> Suffix(imgPath) == [imgPath[|imgPath| - 1]]
  {
    var d := RFind(imgPath, '.');
    if '.' in imgPath {
      var w :| 0 <= w < |imgPath| && imgPath[w] == '.';
      assert d >= w;
    } else {
      assert imgPath[|imgPath| - 1..] == [imgPath[|imgPath| - 1]];
    }
  }

  /** No target exactly when the path holds no '/'; otherwise the parent is
      the original path up to its last '/', the new name is the given name
      followed by the original's suffix, and the new path joins the two. */
  lemma TargetShape(imgPath: string, newName: string)
    ensures ComputeTarget(imgPath, newName).None? <==> '/' !in imgPath
    ensures ComputeTarget(imgPath, newName).Some? ==>
              var t := ComputeTarget(imgPath, newName).value;
              && imgPath == t.parent + imgPath[|t.parent|..]
              && imgPath[|t.parent|] == '/'
              && (forall j :: |t.parent| < j < |imgPath| ==> imgPath[j] != '/')
              && t.newName == newName + Suffix(imgPath)
              && t.newPath == t.parent + "/" + t.newName
  {
    var slash := RFind(imgPath, '/');
    if '/' in imgPath {
      var w :| 0 <= w < |imgPath| && imgPath[w] == '/';
      assert slash >= w;
    }
  }

  /** The parent folder survives the rename: computing the parent of the new
      path gives back the original parent, as long as neither the new name nor
      the appended suffix holds a '/'. */
  lemma ParentPreserved(imgPath: string, newName: string, other: string)
    requires ComputeTarget(imgPath, newName).Some?
    requires '/' !in ComputeTarget(imgPath, newName).value.newName
    ensures ComputeTarget(ComputeTarget(imgPath, newName).value.newPath, other).Some?
    ensures ComputeTarget(ComputeTarget(imgPath, newName).value.newPath, other).value.parent ==
              ComputeTarget(imgPath, newName).value.parent
  {
    var t := ComputeTarget(imgPath, newName).value;
    var p := t.newPath;
    var k := |t.parent|;
    assert p[k] == '/';
    forall j | k < j < |p| ensures p[j] != '/' {
      assert p[j] == t.newName[j - k - 1];
    }
    RFindUnique(p, '/', k);
    assert p[..k] == t.parent;
  }

  /** The extension survives the rename: when the original's last '.' comes
      after its last '/' and the new name holds no '.', the new path ends in
      the same extension as the original. */
  lemma ExtensionPreserved(imgPath: string, newName: string)
    requires ComputeTarget(imgPath, newName).Some?
    requires RFind(imgPath, '.') > RFind(imgPath, '/')
    requires '.' !in newName
    ensures Suffix(ComputeTarget(imgPath, newName).value.newPath) == Suffix(imgPath)
  {
    var t := ComputeTarget(imgPath, newName).value;
    var d := RFind(imgPath, '.');
    var ext := imgPath[d..];
    assert Suffix(imgPath) == ext;
    var p := t.newPath;
    var at := |t.parent| + 1 + |newName|;
    assert p == t.parent + "/" + newName + ext;
    assert p[at..] == ext;
    assert p[at] == '.';
    forall j | at < j < |p| ensures p[j] != '.' {
      assert p[j] == imgPath[d + j - at];
    }
    RFindUnique(p, '.', at);
  }

  /** The case `images/photo.JPG` + `cover` and the two edge cases of the suffix rule. */
  lemma TargetExamples()
    ensures ComputeTarget("images/photo.JPG", "cover") ==
              Some(Target("images", "cover.JPG", "images/cover.JPG"))
    ensures ComputeTarget("img/photo", "new") == Some(Target("img", "newo", "img/newo"))
    ensures ComputeTarget("photo.png", "new") == None
  {
    assert RFind("images/photo.JPG", '.') == 12 by {
      RFindUnique("images/photo.JPG", '.', 12);
    }
    assert RFind("images/photo.JPG", '/') == 6 by {
      RFindUnique("images/photo.JPG", '/', 6);
    }
    assert "images/photo.JPG"[..6] == "images" && "images/photo.JPG"[12..] == ".JPG";
    assert "img/photo"[..3] == "img" && "img/photo"[8..] == "o";
    assert RFind("img/photo", '.') == -1 by {
      RFindUnique("img/photo", '.', -1);
    }
    assert RFind("img/photo", '/') == 3 by {
      RFindUnique("img/photo", '/', 3);
    }
    assert Suffix("images/photo.JPG") == ".JPG";
    assert "cover" + ".JPG" == "cover.JPG" && "images" + "/" + "cover.JPG" == "images/cover.JPG";
    assert Suffix("img/photo") == "o";
    assert "new" + "o" == "newo" && "img" + "/" + "newo" == "img/newo";
    assert RFind("photo.png", '/') == -1 by {
      RFindUnique("photo.png", '/', -1);
    }
  }
}
