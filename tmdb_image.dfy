/** The `tmdbImage` pipe: turns a poster path into a URL that can be shown. */
module TmdbImage {
  import opened Wrappers

  const NoPoster := "/assets/no-poster.jpg"
  const ImageBase := "https://image.tmdb.org/t/p/w500"

  predicate StartsWith(s: string, prefix: string) {
    |prefix| <= |s| && s[..|prefix|] == prefix
  }

  /** `transform(path)`; `None` stands for `undefined`. */
  function Transform(path: Option<string>): (r: string)
    ensures path.None? || path.value == "" ==> r == NoPoster
    ensures path.Some? && StartsWith(path.value, "http") ==> r == path.value
    ensures path.Some? && path.value != "" && !StartsWith(path.value, "http") ==> r == ImageBase + path.value
  {
    if path.None? || path.value == "" then NoPoster
    else if StartsWith(path.value, "http") then path.value
    else ImageBase + path.value
  }

  /** Every URL the pipe produces for a non-empty path starts with "http". */
  lemma TransformNonEmptyIsHttp(path: string)
    requires path != ""
    ensures StartsWith(Transform(Some(path)), "http")
  {
    if !StartsWith(path, "http") {
      assert (ImageBase + path)[..4] == ImageBase[..4];
    }
  }

  /** For a non-empty path the pipe is idempotent. */
  lemma TransformIdempotent(path: string)
    requires path != ""
    ensures Transform(Some(Transform(Some(path)))) == Transform(Some(path))
  {
    TransformNonEmptyIsHttp(path);
  }

  /** ... but not for a missing path: the placeholder is itself a relative path
      and would be sent to the image host. */
  lemma TransformPlaceholderNotFixed()
    ensures Transform(Some(Transform(None))) == ImageBase + NoPoster
  {
    assert NoPoster[0] == '/';
    assert !StartsWith(NoPoster, "http");
  }
}
