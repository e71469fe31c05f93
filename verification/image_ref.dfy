/** The image reference `IMAGE` that the build tags and the push sends:
    registry user name, `/`, image name, `:`, tag. It is built without the
    registry address. */
module ImageRef {
  import opened Errors
  import opened Strings

  /** `REGISTRY_USERNAME + "/" + IMAGE_NAME + ":" + IMAGE_TAG`. */
  function Reference(username: string, name: string, tag: string): string
  {
    username + "/" + name + ":" + tag
  }

  /** The three components of a reference. */
  datatype Parts = Parts(username: string, name: string, tag: string)

  /** Reads a reference back: the user name runs to the first `/`, the tag
      starts after the last `:`. */
  function Parse(ref: string): Option<Parts>
  {
    var i := IndexOf(ref, '/');
    if i == |ref| then None
    else
      var rest := ref[i + 1..];
      var j := LastIndexOf(rest, ':');
      if j < 0 then None
      else Some(Parts(ref[..i], rest[..j], rest[j + 1..]))
  }

  /** A reference built from a user name without `/` and a tag without `:`
      reads back as exactly those components. */
  lemma ParseReference(username: string, name: string, tag: string)
    requires '/' !in username && ':' !in tag
    ensures Parse(Reference(username, name, tag)) == Some(Parts(username, name, tag))
  {
    var ref := Reference(username, name, tag);
    var rest := name + ":" + tag;
    assert ref == username + "/" + rest;
    assert ref[..|username|] == username;
    IndexOfAt(ref, '/', |username|);
    assert ref[|username| + 1..] == rest;
    assert rest[|name| + 1..] == tag;
    LastIndexOfAt(rest, ':', |name|);
    assert rest[..|name|] == name;
  }

  /** Every string that reads as a reference is the reference of what it
      reads as, and its user name has no `/` and its tag no `:`. */
  lemma ReferenceOfParse(ref: string, p: Parts)
    requires Parse(ref) == Some(p)
    ensures Reference(p.username, p.name, p.tag) == ref
    ensures '/' !in p.username && ':' !in p.tag
  {
    var i := IndexOf(ref, '/');
    var rest := ref[i + 1..];
    var j := LastIndexOf(rest, ':');
    assert i < |ref| && 0 <= j;
    assert p == Parts(ref[..i], rest[..j], rest[j + 1..]);
    Reassemble(ref, i, j);
    NoneBeforeIndexOf(ref, '/');
    NoneAfterLastIndexOf(rest, ':');
  }

  /** A string with `/` at `i` and `:` at `i + 1 + j` is the three pieces
      around them joined as a reference. */
  lemma Reassemble(ref: string, i: nat, j: nat)
    requires i < |ref| && ref[i] == '/'
    requires i + 1 + j < |ref| && ref[i + 1 + j] == ':'
    ensures ref == Reference(ref[..i], ref[i + 1..][..j], ref[i + 1..][j + 1..])
  {
    var rest := ref[i + 1..];
    assert rest == rest[..j] + ":" + rest[j + 1..];
    assert ref == ref[..i] + "/" + rest;
  }
}
