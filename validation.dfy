/**
  The two checks the settings dialog runs before it commits a save: whether a
  name may be used, and whether a URL is acceptable.
*/
module Validation {
  import opened InstanceRegistry

  /**
    Whether `newName` may be saved in place of `oldName` over registry `m`
    (the plugin's current map): the empty name never, an unchanged name
    always, any other name only when no instance has it yet.
  */
  function ValidName(m: Instances, oldName: string, newName: string): (valid: bool)
    ensures valid <==> newName != "" && newName !in m.Keys - {oldName}
  {
    if newName == "" then false
    else if oldName == newName then true
    else newName !in m
  }

  /**
    A validated save never overwrites another instance: every entry other
    than the one being edited survives, and the registry grows by one for a
    new instance and keeps its size for an edit.
  */
  lemma ValidSaveClobbersNothing(m: Instances, oldName: string, name: string, inst: Instance)
    requires ValidName(m, oldName, name)
    requires oldName == "" || oldName in m
    ensures forall k :: k in m && (oldName == "" || k != oldName) ==> k in Saved(m, oldName, name, inst) && Saved(m, oldName, name, inst)[k] == m[k]
    ensures |Saved(m, oldName, name, inst)| == if oldName == "" then |m| + 1 else |m|
  {
  }

  /** Whether `s` begins with `prefix`. */
  predicate StartsWith(s: string, prefix: string) {
    prefix <= s
  }

  /**
    The regular expression `^https?://.` matched at the start of `url`:
    `http`, an optional `s`, `://`, then one character other than a newline.
  */
  predicate MatchesSchemePattern(url: string): (matched: bool)
    ensures matched ==> |url| > 7 && (StartsWith(url, "http://") || StartsWith(url, "https://"))
  {
    || (StartsWith(url, "https://") && |url| > 8 && url[8] != '\n')
    || (StartsWith(url, "http://") && |url| > 7 && url[7] != '\n')
  }

  /**
    Whether `newUrl` is an acceptable instance URL: not a UNC path, an
    http or https scheme followed by something, and no `@` (credentials go
    in their own fields). The first argument plays no part. The converse of
    these postconditions is `ValidUrlCharacterized`.
  */
  function ValidUrl(oldName: string, newUrl: string): (valid: bool)
    ensures valid ==> '@' !in newUrl
    ensures valid ==> StartsWith(newUrl, "http://") || StartsWith(newUrl, "https://")
  {
    if StartsWith(newUrl, "\\\\") then false
    else if !MatchesSchemePattern(newUrl) then false
    else if '@' in newUrl then false
    else true
  }

  /** The UNC guard is subsumed: a URL is valid exactly when it matches the scheme pattern and holds no `@`. */
  lemma ValidUrlCharacterized(oldName: string, newUrl: string)
    ensures ValidUrl(oldName, newUrl) <==> MatchesSchemePattern(newUrl) && '@' !in newUrl
  {
    if MatchesSchemePattern(newUrl) {
      assert newUrl[0] == 'h';
      assert !StartsWith(newUrl, "\\\\");
    }
  }

  /** Appending the trailing slash on save keeps a valid URL valid. */
  lemma NormalizeKeepsUrlValid(oldName: string, url: string)
    requires ValidUrl(oldName, url)
    ensures ValidUrl(oldName, NormalizeUrl(url))
  {
  }


  /** Accepted and rejected names and URLs, including the edges of the scheme pattern. */
  lemma Examples(m: Instances)
    ensures !ValidName(m, "", "")
    ensures ValidName(m, "a", "a")
    ensures ValidName(m, "", "a") <==> "a" !in m
    ensures ValidUrl("", "http://host")
    ensures ValidUrl("", "https://host/path")
    ensures !ValidUrl("", "ftp://host")
    ensures !ValidUrl("", "http://user@host")
    ensures !ValidUrl("", "\\\\server\\share")
    ensures !ValidUrl("", "")
    ensures !ValidUrl("", "http://")
    ensures !ValidUrl("", "http://\nhost")
  {
    assert "http://host"[0] == 'h' && "http://host"[4] == ':' && "http://host"[7] == 'h';
    assert "https://host/path"[0] == 'h' && "https://host/path"[8] == 'h';
    assert "http://user@host"[11] == '@';
    assert "ftp://host"[0] == 'f';
    assert "http://\nhost"[4] == ':' && "http://\nhost"[7] == '\n';
  }
}
