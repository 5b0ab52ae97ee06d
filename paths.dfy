/**
 * Where the artifacts of a paper live: `get_paper_path` joins the storage
 * directory with the paper id and a suffix (".md" for the converted text,
 * ".pdf" for the downloaded document).
 */
module PaperPaths {

  const Markdown: string := ".md"
  const Pdf: string := ".pdf"

  /** `root / f"{paper_id}{suffix}"`, the directory rendered without a trailing separator. */
  function PaperPath(root: string, paperId: string, suffix: string): string
  {
    root + "/" + paperId + suffix
  }

  /** The `file://` location reported to callers. */
  function FileUri(path: string): string
  {
    "file://" + path
  }

  /** The `resource_uri` of the Markdown artifact of `paperId`. */
  function MarkdownUri(root: string, paperId: string): string
  {
    FileUri(PaperPath(root, paperId, Markdown))
  }

  /** A path splits back into the storage directory, the id and the suffix. */
  lemma PaperPathParts(root: string, paperId: string, suffix: string)
    ensures var p := PaperPath(root, paperId, suffix);
      && |p| == |root| + 1 + |paperId| + |suffix|
      && p[..|root|] == root
      && p[|root|] == '/'
      && p[|root| + 1..|root| + 1 + |paperId|] == paperId
      && p[|root| + 1 + |paperId|..] == suffix
  {
  }

  /** Two papers never share a file with the same suffix. */
  lemma PaperPathInjective(root: string, a: string, b: string, suffix: string)
    requires PaperPath(root, a, suffix) == PaperPath(root, b, suffix)
    ensures a == b
  {
    PaperPathParts(root, a, suffix);
    PaperPathParts(root, b, suffix);
  }

  /** The Markdown artifact of one paper is never the PDF of any paper. */
  lemma MarkdownIsNeverPdf(root: string, a: string, b: string)
    ensures PaperPath(root, a, Markdown) != PaperPath(root, b, Pdf)
  {
    var m, p := PaperPath(root, a, Markdown), PaperPath(root, b, Pdf);
    assert m[|m| - 1] == 'd';
    assert p[|p| - 1] == 'f';
  }

  /** Distinct papers are reported under distinct resource locations. */
  lemma MarkdownUriInjective(root: string, a: string, b: string)
    requires MarkdownUri(root, a) == MarkdownUri(root, b)
    ensures a == b
  {
    var pa, pb := PaperPath(root, a, Markdown), PaperPath(root, b, Markdown);
    assert pa == MarkdownUri(root, a)[7..];
    assert pb == MarkdownUri(root, b)[7..];
    PaperPathInjective(root, a, b, Markdown);
  }
}
