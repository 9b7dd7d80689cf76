/** The object key and content type that `uploadStream` puts into the upload
    request. Node's `path.join` is an input: its normalisation of `..` and of
    repeated separators is not modelled. */
module Keys {
  import opened Js

  /** The characters of `\w` in a JavaScript regular expression without the
      `u` flag: `[A-Za-z0-9_]`. */
  predicate IsWordChar(c: char) {
    ('A' <= c <= 'Z') || ('a' <= c <= 'z') || ('0' <= c <= '9') || c == '_'
  }

  /** `/\.\w+$/` finds a match in s: a dot followed by one or more word
      characters up to the end of the string. */
  ghost predicate EndsWithExtension(s: string) {
    exists i :: 0 <= i < |s| - 1 && s[i] == '.' && forall j :: i < j < |s| ==> IsWordChar(s[j])
  }

  /** The length of the longest suffix of s made only of word characters. */
  function TrailingWordChars(s: string): (n: nat)
    ensures n <= |s|
    ensures forall j :: |s| - n <= j < |s| ==> IsWordChar(s[j])
    ensures n < |s| ==> !IsWordChar(s[|s| - 1 - n])
  {
    if s == [] || !IsWordChar(s[|s| - 1]) then 0
    else 1 + TrailingWordChars(s[..|s| - 1])
  }

  /** The test `path.match(/\.\w+$/)` of `uploadStream`, decided by locating
      the run of word characters at the end of the path. */
  function HasExtension(path: string): (b: bool) {
    var n := TrailingWordChars(path);
    0 < n < |path| && path[|path| - 1 - n] == '.'
  }

  /** The run-based test agrees with the regular expression: the dot a match
      starts at is exactly the character before the trailing run. */
  lemma HasExtensionIsRegexMatch(path: string)
    ensures HasExtension(path) <==> EndsWithExtension(path)
  {
    var n := TrailingWordChars(path);
    if EndsWithExtension(path) {
      var i :| 0 <= i < |path| - 1 && path[i] == '.' && forall j :: i < j < |path| ==> IsWordChar(path[j]);
      assert !IsWordChar(path[i]);
      assert n == |path| - 1 - i;
    }
    if HasExtension(path) {
      var i := |path| - 1 - n;
      assert 0 <= i < |path| - 1 && path[i] == '.';
    }
  }

  /** `params.ext` is truthy: an extension hint is supplied and not empty. */
  predicate HintGiven(ext: Option<string>) {
    TruthyString(ext)
  }

  /** The final key of `uploadStream`: the join of prefix and caller path,
      with `.` and the hint appended only when a hint is given and the
      caller's own path (not the joined one) has no extension. */
  function FinalKey(join: (string, string) -> string, prefix: string, path: string, ext: Option<string>): (key: string)
    ensures HintGiven(ext) && !EndsWithExtension(path) ==> key == join(prefix, path) + "." + ext.value
    ensures !HintGiven(ext) || EndsWithExtension(path) ==> key == join(prefix, path)
  {
    HasExtensionIsRegexMatch(path);
    var joined := join(prefix, path);
    if HintGiven(ext) && !HasExtension(path) then joined + "." + ext.value else joined
  }

  /** When the hint is itself made of word characters, the key that received
      it ends with an extension, so a second upload of that key with the same
      hint would not append it again. */
  lemma AppendedHintIsAnExtension(join: (string, string) -> string, prefix: string, path: string, ext: Option<string>)
    requires HintGiven(ext) && !EndsWithExtension(path)
    requires forall k :: 0 <= k < |ext.value| ==> IsWordChar(ext.value[k])
    ensures EndsWithExtension(FinalKey(join, prefix, path, ext))
    ensures FinalKey(join, "", FinalKey(join, prefix, path, ext), ext) == join("", FinalKey(join, prefix, path, ext))
  {
    var joined := join(prefix, path);
    var key := FinalKey(join, prefix, path, ext);
    assert key == joined + "." + ext.value;
    var i := |joined|;
    assert key[i] == '.';
    forall j | i < j < |key| ensures IsWordChar(key[j]) {
      assert key[j] == ext.value[j - i - 1];
    }
  }

  /** The content-type fallback of the upload request. */
  const DefaultContentType := "application/octet-stream"

  /** `params.type || 'application/octet-stream'`: the declared type when it
      is truthy, the default otherwise; never empty. */
  function ContentTypeOf(declared: Option<string>): (ct: string)
    ensures ct != ""
    ensures TruthyString(declared) ==> ct == declared.value
    ensures !TruthyString(declared) ==> ct == DefaultContentType
  {
    if TruthyString(declared) then declared.value else DefaultContentType
  }

  /** The two key examples: a bare name receives the hint, a name with an
      extension keeps it. */
  lemma KeyExamples(join: (string, string) -> string)
    requires join("uploads/", "photo") == "uploads/photo"
    ensures FinalKey(join, "uploads/", "photo", Some("jpg")) == "uploads/photo.jpg"
    ensures FinalKey(join, "uploads/", "photo.png", Some("jpg")) == join("uploads/", "photo.png")
    ensures FinalKey(join, "uploads/", "photo", None) == "uploads/photo"
    ensures FinalKey(join, "uploads/", "photo.", Some("jpg")) == join("uploads/", "photo.") + ".jpg"
    ensures FinalKey(join, "uploads/", "photo.tar-gz", Some("jpg")) == join("uploads/", "photo.tar-gz") + ".jpg"
  {
    var png, bare, dot, dash := "photo.png", "photo", "photo.", "photo.tar-gz";
    HasExtensionIsRegexMatch(png);
    assert png[5] == '.' && forall j :: 5 < j < |png| ==> IsWordChar(png[j]);
    HasExtensionIsRegexMatch(bare);
    assert forall i :: 0 <= i < |bare| ==> bare[i] != '.';
    HasExtensionIsRegexMatch(dot);
    assert forall i :: 0 <= i < |dot| - 1 ==> dot[i] != '.';
    HasExtensionIsRegexMatch(dash);
    assert !IsWordChar(dash[9]);
  }
}
