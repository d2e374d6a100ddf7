/** Image references: a repository with a tag or a digest. */
module ImageRef {
  import opened Text

  function StripTag(image: string): string {
    var repo := image[..IndexOf(image, '@')];
    var colon := LastIndexOf(repo, ':');
    if colon > LastIndexOf(repo, '/') then repo[..colon] else repo
  }

  /** What stands behind the first `@`. */
  function DigestPart(ref: string): string {
    var i := IndexOf(ref, '@');
    if i < |ref| then ref[i + 1..] else ""
  }

  function Pinned(image: string, digest: string): string {
    StripTag(image) + "@" + digest
  }

  /** A pinned reference carries the digest, and the repository it was made from. */
  lemma PinnedParts(image: string, digest: string)
    ensures DigestPart(Pinned(image, digest)) == digest
    ensures '@' in Pinned(image, digest)
    ensures StripTag(image) <= image && '@' !in StripTag(image)
  {
    var repo := StripTag(image);
    assert forall j :: 0 <= j < |repo| ==> repo[j] == image[j];
    IndexOfAt(repo, '@', digest);
    assert Pinned(image, digest)[|repo|] == '@';
  }

  lemma NoAt(s: string)
    requires '@' !in s
    ensures IndexOf(s, '@') == |s| && s[..IndexOf(s, '@')] == s
  {
    assert forall j :: 0 <= j < |s| ==> s[j] in s;
  }

  lemma LastIndexIs(s: string, c: char, i: int)
    requires -1 <= i < |s| && (i >= 0 ==> s[i] == c) && forall j :: i < j < |s| ==> s[j] != c
    ensures LastIndexOf(s, c) == i
  {
  }

  /** `repo:tag` loses its tag. */
  lemma TagIsStripped(repo: string, tag: string)
    requires '@' !in repo + ":" + tag && ':' !in tag && '/' !in tag
    ensures StripTag(repo + ":" + tag) == repo
  {
    hide IndexOf, LastIndexOf;
    var image := repo + ":" + tag;
    NoAt(image);
    assert forall j :: |repo| < j < |image| ==> image[j] == tag[j - |repo| - 1] && image[j] in tag;
    LastIndexIs(image, ':', |repo|);
    assert image[|repo|] == ':' && image[..|repo|] == repo;
  }

  /** A colon that belongs to a registry port stays. */
  lemma UntaggedStays(image: string)
    requires '@' !in image && LastIndexOf(image, ':') <= LastIndexOf(image, '/')
    ensures StripTag(image) == image
  {
    NoAt(image);
  }
}
