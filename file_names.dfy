/** Output file names: characters that Windows forbids in a file name are replaced. */
module FileNames {
  /** The characters Windows refuses in a file name. */
  predicate Forbidden(ch: char)
  {
    ch == '<' || ch == '>' || ch == ':' || ch == '"' || ch == '/' || ch == '\\' || ch == '|' || ch == '?' || ch == '*'
  }

  method CleanFileName(fileName: string) returns (res: string)
    ensures |res| == |fileName|
    ensures forall i :: 0 <= i < |fileName| ==> res[i] == if Forbidden(fileName[i]) then '_' else fileName[i]
    ensures forall i :: 0 <= i < |res| ==> !Forbidden(res[i])
  {
    res := "";
    var i := 0;
    while i < |fileName|
      invariant 0 <= i <= |fileName| && |res| == i
      invariant forall j :: 0 <= j < i ==> res[j] == if Forbidden(fileName[j]) then '_' else fileName[j]
    {
      var ch := fileName[i];
      if Forbidden(ch) {
        res := res + ['_'];
      } else {
        res := res + [ch];
      }
      i := i + 1;
    }
  }
}
