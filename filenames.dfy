/** The rules both front-ends use to turn a user-chosen name into the path of
    the image file they write. */
module Filenames {
  import opened Strings

  const PngSuffix: string := ".png"

  /** `if not filename.endswith('.png'): filename += '.png'` */
  function EnsurePng(name: string): (r: string)
    ensures EndsWith(r, PngSuffix)
    ensures StartsWith(r, name)
    ensures EndsWith(name, PngSuffix) ==> r == name
    ensures !EndsWith(name, PngSuffix) ==> r == name + PngSuffix
  {
    if EndsWith(name, PngSuffix) then name else name + PngSuffix
  }

  /** Applying the suffix rule twice is the same as applying it once. */
  lemma EnsurePngIdempotent(name: string)
    ensures EnsurePng(EnsurePng(name)) == EnsurePng(name)
  {
  }

  /** The rule is the least change that makes the name end in ".png": a name is
      left unchanged exactly when it already ends in ".png", and otherwise
      exactly the four characters are added. */
  lemma EnsurePngUnchangedIff(name: string)
    ensures EnsurePng(name) == name <==> EndsWith(name, PngSuffix)
    ensures |EnsurePng(name)| <= |name| + |PngSuffix|
  {
  }

  /** Python's `posixpath.join(dir, name)`: an absolute `name` replaces the
      directory, and no second '/' is inserted after a directory that ends in
      one (or is empty). */
  function PathJoin(dir: string, name: string): (r: string)
    ensures EndsWith(r, name)
  {
    if StartsWith(name, "/") then name
    else if dir == [] || EndsWith(dir, "/") then dir + name
    else dir + "/" + name
  }

  /** Joining a relative name to a plain directory puts it in that directory. */
  lemma PathJoinRelative(dir: string, name: string)
    requires dir != [] && !EndsWith(dir, "/") && !StartsWith(name, "/")
    ensures PathJoin(dir, name) == dir + "/" + name
  {
  }

  /** Two relative names in the same directory give two different paths. */
  lemma PathJoinInjective(dir: string, a: string, b: string)
    requires !StartsWith(a, "/") && !StartsWith(b, "/") && a != b
    ensures PathJoin(dir, a) != PathJoin(dir, b)
  {
    var pa, pb := PathJoin(dir, a), PathJoin(dir, b);
    var pre := if dir == [] || EndsWith(dir, "/") then dir else dir + "/";
    assert pa == pre + a && pb == pre + b;
  }
}
