/**
 * The MCP endpoint URL that `configure` registers: the organisation URL
 * exactly as given, followed by the GA or the preview suffix.  Both versions
 * of the setup script build it the same way.
 */
module Endpoint {
  import opened Text

  const GaSuffix := "/api/mcp"
  const PreviewSuffix := "/api/mcp_preview"

  /** "preview" selects the preview endpoint; every other value the GA one. */
  function McpUrl(orgUrl: string, endpointType: string): (url: string)
    ensures StartsWith(url, orgUrl)
    ensures url[|orgUrl|..] == if endpointType == "preview" then PreviewSuffix else GaSuffix
  {
    if endpointType == "preview" then orgUrl + PreviewSuffix else orgUrl + GaSuffix
  }

  /**
   * The URL begins with the organisation URL and ends in exactly one of the
   * two suffixes, chosen by the endpoint type; no trailing `/` is ever left.
   */
  lemma McpUrlShape(orgUrl: string, endpointType: string)
    ensures StartsWith(McpUrl(orgUrl, endpointType), orgUrl)
    ensures EndsWith(McpUrl(orgUrl, endpointType), PreviewSuffix) <==> endpointType == "preview"
    ensures EndsWith(McpUrl(orgUrl, endpointType), GaSuffix) <==> endpointType != "preview"
    ensures McpUrl(orgUrl, endpointType)[|McpUrl(orgUrl, endpointType)| - 1] != '/'
  {
    var u := McpUrl(orgUrl, endpointType);
    assert u[..|orgUrl|] == orgUrl;
    if endpointType == "preview" {
      assert u[|u| - |PreviewSuffix|..] == PreviewSuffix;
      assert u[|u| - 1] == 'w';
    } else {
      assert u[|u| - |GaSuffix|..] == GaSuffix;
      assert u[|u| - 1] == 'p';
    }
  }

  /**
   * Different (organisation, variant) pairs give different URLs: the URL
   * determines the organisation URL and whether the preview was chosen.
   */
  lemma McpUrlInjective(orgUrl1: string, endpointType1: string, orgUrl2: string, endpointType2: string)
    requires McpUrl(orgUrl1, endpointType1) == McpUrl(orgUrl2, endpointType2)
    ensures orgUrl1 == orgUrl2
    ensures endpointType1 == "preview" <==> endpointType2 == "preview"
  {
    var u := McpUrl(orgUrl1, endpointType1);
    McpUrlShape(orgUrl1, endpointType1);
    McpUrlShape(orgUrl2, endpointType2);
    var suffix := if endpointType1 == "preview" then PreviewSuffix else GaSuffix;
    assert u[|u| - 1] == suffix[|suffix| - 1];
    assert McpUrl(orgUrl2, endpointType2)[|u| - 1] == (if endpointType2 == "preview" then 'w' else 'p');
    assert orgUrl1 == u[..|u| - |suffix|] == orgUrl2;
  }

  /** A trailing slash on the organisation URL is kept: `https://x/` gives `https://x//api/mcp`. */
  lemma TrailingSlashKept(host: string)
    ensures McpUrl("https://" + host + "/", "ga") == "https://" + host + "//api/mcp"
  {
  }
}
