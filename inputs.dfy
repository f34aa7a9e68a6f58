/** The text inputs of the model forms: comma-separated tags, one source link
    per line, and the parameter count. Each is shown from the draft's field and
    parsed back into it on every change. */
module Inputs {
  import opened Wrappers
  import opened Text
  import opened Numbers

  /** `value.split(',').map(tag => tag.trim()).filter(Boolean)`. */
  function ParseTags(text: string): (r: seq<string>)
    ensures forall i :: 0 <= i < |r| ==> r[i] != "" && IsTrimmed(r[i]) && ',' !in r[i]
  {
    SplitTrimmed(text, ',')
  }

  /** `tags?.join(', ') || ''`: what the tags input shows. */
  function TagsText(tags: Option<seq<string>>): string {
    if tags.Some? then Join(tags.value, ", ") else ""
  }

  /** Showing a list of trimmed, non-empty, comma-free tags and parsing the
      text back gives the same list. */
  lemma TagsRoundTrip(tags: seq<string>)
    requires forall i :: 0 <= i < |tags| ==> tags[i] != "" && IsTrimmed(tags[i]) && ',' !in tags[i]
    ensures ParseTags(TagsText(Some(tags))) == tags
  {
    assert [','] + " " == ", ";
    SplitTrimmedJoin(tags, ',', " ");
  }

  /** Once parsed, the tags survive being shown and parsed again. */
  lemma ParseTagsStable(text: string)
    ensures ParseTags(TagsText(Some(ParseTags(text)))) == ParseTags(text)
  {
    TagsRoundTrip(ParseTags(text));
  }

  /** `value.split('\n').map(link => link.trim()).filter(Boolean)`. */
  function ParseLinks(text: string): (r: seq<string>)
    ensures forall i :: 0 <= i < |r| ==> r[i] != "" && IsTrimmed(r[i]) && '\n' !in r[i]
  {
    SplitTrimmed(text, '\n')
  }

  /** `source_links?.join('\n') || ''`: what the links input shows. */
  function LinksText(links: Option<seq<string>>): string {
    if links.Some? then Join(links.value, "\n") else ""
  }

  /** Showing trimmed, non-empty, single-line links one per line and parsing
      the text back gives the same links. */
  lemma LinksRoundTrip(links: seq<string>)
    requires forall i :: 0 <= i < |links| ==> links[i] != "" && IsTrimmed(links[i]) && '\n' !in links[i]
    ensures ParseLinks(LinksText(Some(links))) == links
  {
    assert ['\n'] + "" == "\n";
    SplitTrimmedJoin(links, '\n', "");
  }

  lemma ParseLinksStable(text: string)
    ensures ParseLinks(LinksText(Some(ParseLinks(text)))) == ParseLinks(text)
  {
    LinksRoundTrip(ParseLinks(text));
  }

  /** `parseInt(value) || undefined`: a zero or unparsable input clears the
      field. */
  function ParametersFromInput(text: string): (r: Option<int>)
    ensures r.Some? <==> ParseInt(text).Int? && ParseInt(text).value != 0
    ensures r.Some? ==> r.value == ParseInt(text).value
  {
    var n := ParseInt(text);
    if n.Int? && n.value != 0 then Some(n.value) else None
  }

  /** `parameters || ''`: what the parameter input shows. */
  function ParametersText(p: Option<int>): string {
    if p.Some? && p.value != 0 then IntToString(p.value) else ""
  }

  /** A parameter count other than zero survives being shown and parsed back;
      an absent one stays absent. */
  lemma ParametersRoundTrip(p: Option<int>)
    requires p != Some(0)
    ensures ParametersFromInput(ParametersText(p)) == p
  {
    if p.Some? {
      ParseIntString(p.value);
    } else {
      assert TrimStart("") == "";
    }
  }
}
