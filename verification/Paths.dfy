/** The names of files inside a bundle. */
module Paths {
  import opened Text

  /** The parts between the slashes. */
  function Components(s: string): seq<string>
  {
    Split(s, '/')
  }

  /** The first components of a relative path, with ".", "" and what ".." takes back removed. */
  function CleanParts(parts: seq<string>): (out: seq<string>)
    ensures |out| <= |parts|
  {
    if parts == [] then []
    else
      var out, last := CleanParts(parts[..|parts| - 1]), parts[|parts| - 1];
      if last == "" || last == "." then out
      else if last == ".." && out != [] && out[|out| - 1] != ".." then out[..|out| - 1]
      else out + [last]
  }

  /** `path.Clean` for a path that does not begin with a slash. */
  function Clean(name: string): string
  {
    var out := CleanParts(Components(name));
    if out == [] then "." else Join(out, '/')
  }

  predicate Plain(part: string)
  {
    part != "" && part != "." && part != ".."
  }

  /** A short relative path whose every component is a plain name; and "..", the one exception. */
  predicate ValidArtifactPath(name: string)
  {
    && name != "" && ByteLength(name) <= 512
    && (forall i :: 0 <= i < |name| ==> name[i] != '\0' && name[i] != '\\')
    && name[0] != '/'
    && (name == ".." || forall i :: 0 <= i < |Components(name)| ==> Plain(Components(name)[i]))
  }

  /** `validateArtifactPath`: a path that cleaning leaves alone, unless it begins with "../". */
  method ValidateArtifactPath(name: string) returns (ok: bool)
    ensures ok <==> ValidArtifactPath(name)
  {
    if name == "" || ByteLength(name) > 512 || '\0' in name || '\\' in name || name[0] == '/' {
      return false;
    }
    var cleaned := Clean(name);
    CleanPaths(name);
    ok := !(cleaned == "." || cleaned != name || "../" <= cleaned);
  }

  // ------------------------------------------------------------------- cleaning

  /** What cleaning leaves: any number of "..", then plain names, all of them taken from the path. */
  predicate Cleaned(out: seq<string>)
  {
    && (forall i :: 0 <= i < |out| ==> out[i] != "" && out[i] != "." && '/' !in out[i])
    && (forall i, j :: 0 <= i < j < |out| && out[j] == ".." ==> out[i] == "..")
  }

  lemma {:induction false} CleanPartsAreCleaned(parts: seq<string>)
    requires forall i :: 0 <= i < |parts| ==> '/' !in parts[i]
    ensures Cleaned(CleanParts(parts))
  {
    if parts != [] {
      CleanPartsAreCleaned(parts[..|parts| - 1]);
    }
  }

  lemma {:induction false} PlainPartsStay(parts: seq<string>)
    requires forall i :: 0 <= i < |parts| ==> Plain(parts[i])
    ensures CleanParts(parts) == parts
  {
    if parts != [] {
      var n := |parts| - 1;
      PlainPartsStay(parts[..n]);
      assert Plain(parts[n]);
      assert parts == parts[..n] + [parts[n]];
    }
  }

  /** Cleaning leaves alone exactly the paths of cleaned components, and ".". */
  lemma CleanLeavesAlone(name: string)
    requires Clean(name) == name && name != "."
    ensures Components(name) == CleanParts(Components(name))
  {
    var out := CleanParts(Components(name));
    PartsAreFree(name, '/');
    CleanPartsAreCleaned(Components(name));
    SplitOfJoin(out, '/');
  }

  lemma BeginsWithParent(parts: seq<string>)
    requires |parts| > 0 && forall i :: 0 <= i < |parts| ==> '/' !in parts[i]
    ensures "../" <= Join(parts, '/') <==> |parts| > 1 && parts[0] == ".."
  {
    var s := Join(parts, '/');
    if |parts| > 1 {
      var rest := Join(parts[1..], '/');
      assert s == parts[0] + ['/'] + rest;
      assert s[|parts[0]|] == '/' && forall i :: 0 <= i < |parts[0]| ==> s[i] == parts[0][i] != '/';
      assert s[..|parts[0]|] == parts[0];
      if "../" <= s {
        assert s[0] == '.' && s[1] == '.' && s[2] == '/';
        assert |parts[0]| == 2;
      }
    } else {
      assert "../"[2] == '/';
    }
  }

  /** The test on the cleaned path is the test on the components. */
  lemma CleanPaths(name: string)
    requires name != "" && name[0] != '/'
    ensures Clean(name) != "." && Clean(name) == name && !("../" <= Clean(name)) <==>
      name == ".." || forall i :: 0 <= i < |Components(name)| ==> Plain(Components(name)[i])
  {
    var parts := Components(name);
    JoinOfSplit(name, '/');
    PartsAreFree(name, '/');
    BeginsWithParent(parts);
    if Clean(name) == name && name != "." {
      CleanLeavesAlone(name);
      CleanPartsAreCleaned(parts);
      assert parts[0] != ".." ==> forall i :: 0 <= i < |parts| ==> Plain(parts[i]);
      assert parts == [".."] ==> name == "..";
    }
    if forall i :: 0 <= i < |parts| ==> Plain(parts[i]) {
      PlainPartsStay(parts);
      assert name != "." by {
        SplitOfPart(".", '/');
        assert Plain(parts[0]);
      }
      assert Plain(parts[0]);
    }
    if name == ".." {
      SplitOfPart("..", '/');
      assert CleanParts(parts[..0]) == [];
    }
  }

  /** ".." is the only accepted name with a component that is not a plain name. */
  lemma OnlyParentIsNotPlain(name: string)
    requires ValidArtifactPath(name)
    ensures (exists i :: 0 <= i < |Components(name)| && !Plain(Components(name)[i])) <==> name == ".."
  {
    SplitOfPart("..", '/');
    assert Components("..") == [".."];
    assert name == ".." ==> !Plain(Components(name)[0]);
  }
}
