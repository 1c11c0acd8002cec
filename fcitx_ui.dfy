/**
 * How the Fcitx addon renders a decoded key-event reply on the host's input
 * panel: the client preedit (underlined when non-empty), and a display-only
 * candidate list whose labels are "text" or "text comment" and whose cursor
 * is the highlighted index brought back into range.
 */
module FcitxUi {
  import opened Wrappers
  import opened IpcClient

  datatype CandidateList = CandidateList(labels: seq<string>, pageSize: int, cursor: int)

  /** The part of the host's input panel the addon writes. */
  datatype Panel = Panel(preedit: string, underlined: bool, candidates: Option<CandidateList>)

  /** The panel after `inputPanel.reset()`. */
  const EmptyPanel: Panel := Panel("", false, None)

  /** A status line in the client preedit (plain text); the candidate list is left as it was. */
  function WithStatus(p: Panel, text: string): (r: Panel)
    ensures r.preedit == text && !r.underlined && r.candidates == p.candidates
  {
    p.(preedit := text, underlined := false)
  }

  const ErrorPrefix: string := "❌ "

  /** showError: the message behind the error mark, replacing the preedit. */
  function ErrorPanel(p: Panel, error: string): (r: Panel)
    ensures r.preedit == ErrorPrefix + error && r.preedit[..|ErrorPrefix|] == ErrorPrefix
    ensures r.candidates == p.candidates
  {
    WithStatus(p, ErrorPrefix + error)
  }

  /** A candidate's label: the text, then a space and the comment when there is one. */
  function CandidateLabel(c: Candidate): (shown: string)
    ensures c.comment == "" ==> shown == c.text
    ensures c.comment != "" ==> shown == c.text + " " + c.comment
  {
    if c.comment == "" then c.text else c.text + " " + c.comment
  }

  /** Knowing the text, a label gives back the comment: nothing of either is lost. */
  lemma LabelKeepsBoth(c: Candidate)
    ensures CandidateLabel(c)[..|c.text|] == c.text
    ensures |CandidateLabel(c)| == if c.comment == "" then |c.text| else |c.text| + 1 + |c.comment|
    ensures c.comment != "" ==> CandidateLabel(c)[|c.text| + 1..] == c.comment
  {
  }

  /** Labels in candidate order. */
  function Labels(cs: seq<Candidate>): (r: seq<string>)
    ensures |r| == |cs| && forall k :: 0 <= k < |cs| ==> r[k] == CandidateLabel(cs[k])
  {
    seq(|cs|, k requires 0 <= k < |cs| => CandidateLabel(cs[k]))
  }

  /** The cursor handed to the host: the highlighted index when it names a candidate, else the first. */
  function ClampIndex(index: int, count: int): (r: int)
    ensures 0 <= index < count ==> r == index
    ensures !(0 <= index < count) ==> r == 0
    ensures count > 0 ==> 0 <= r < count
  {
    if index < 0 || index >= count then 0 else index
  }

  /** updateUI: the panel is determined by the preedit, the candidates, the highlighted index and the page size. */
  function Project(s: RimeUIState): (p: Panel)
    ensures p.preedit == s.preeditText && p.underlined == (s.preeditText != "")
    ensures p.candidates.None? <==> s.candidates == []
    ensures p.candidates.Some? ==>
              && p.candidates.value.labels == Labels(s.candidates)
              && p.candidates.value.pageSize == s.pageSize
              && 0 <= p.candidates.value.cursor < |s.candidates|
  {
    Panel(s.preeditText, s.preeditText != "",
          if s.candidates == [] then None
          else Some(CandidateList(Labels(s.candidates), s.pageSize, ClampIndex(s.highlightedIndex, |s.candidates|))))
  }

  /** A reply that filled nothing (every failure path) leaves the panel exactly as clearUI does. */
  lemma ProjectDefaultClears(handled: bool, commit: string)
    ensures Project(DefaultUIState.(handled := handled, commitText := commit)) == EmptyPanel
  {
  }

  /** The cursor shown is the reply's highlighted index whenever that index is in range. */
  lemma ProjectKeepsValidHighlight(s: RimeUIState)
    requires 0 <= s.highlightedIndex < |s.candidates|
    ensures Project(s).candidates == Some(CandidateList(Labels(s.candidates), s.pageSize, s.highlightedIndex))
  {
  }

  /** updateUI's candidate loop: one label appended per candidate, then the page size and the clamped cursor. */
  method BuildCandidateList(s: RimeUIState) returns (list: Option<CandidateList>)
    ensures list == Project(s).candidates
  {
    if s.candidates == [] {
      return None;
    }
    var labels: seq<string> := [];
    for i := 0 to |s.candidates|
      invariant labels == Labels(s.candidates[..i])
    {
      var c := s.candidates[i];
      var shown := c.text;
      if c.comment != "" {
        shown := shown + " " + c.comment;
      }
      assert s.candidates[..i + 1] == s.candidates[..i] + [c];
      labels := labels + [shown];
    }
    assert s.candidates[..|s.candidates|] == s.candidates;
    var cursor := s.highlightedIndex;
    if cursor < 0 || cursor >= |s.candidates| {
      cursor := 0;
    }
    list := Some(CandidateList(labels, s.pageSize, cursor));
  }
}
