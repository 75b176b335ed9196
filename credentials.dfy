/** The outbound header set for a token kind: Bearer plus a fixed API
    version for the document service, Basic over `token:api_token` for the
    time-tracking service. */
module Credentials {
  import opened Wrappers
  import opened Http
  import Base64
  import Utf8

  const NotionVersion: string := "2022-06-28"
  const JsonContentType: string := "application/json"
  const NotionTokenKey: string := "notionToken"
  const TogglTokenKey: string := "togglApiToken"

  function BearerValue(token: string): string {
    "Bearer " + token
  }

  /** The text whose UTF-8 octets are base 64 encoded for Basic auth. */
  function BasicUserPass(token: string): string {
    token + ":api_token"
  }

  /** The Basic credential: the scheme name, then four base 64 characters
      for every started group of three octets of `token:api_token`. */
  function BasicValue(token: string): (r: string)
    ensures |r| == 6 + (|Utf8.Encode(BasicUserPass(token))| + 2) / 3 * 4
    ensures r[..6] == "Basic "
    ensures Base64.WellFormed(r[6..])
  {
    Base64.EncodeWellFormed(Utf8.Encode(BasicUserPass(token)));
    "Basic " + Base64.Encode(Utf8.Encode(BasicUserPass(token)))
  }

  /** The headers a relayed call carries; None for an unknown token kind. */
  function OutboundHeaders(tokenKey: Option<string>, tokenValue: string): (r: Option<Headers>)
    ensures r.Some? <==> tokenKey == Some(NotionTokenKey) || tokenKey == Some(TogglTokenKey)
    ensures r.Some? ==> "Content-Type" in r.value && r.value["Content-Type"] == JsonContentType
    ensures r.Some? ==> "Authorization" in r.value
  {
    if tokenKey == Some(NotionTokenKey) then
      Some(map["Content-Type" := JsonContentType,
               "Authorization" := BearerValue(tokenValue),
               "Notion-Version" := NotionVersion])
    else if tokenKey == Some(TogglTokenKey) then
      Some(map["Content-Type" := JsonContentType,
               "Authorization" := BasicValue(tokenValue)])
    else None
  }

  /** A document-service token gives exactly three headers: the JSON content
      type, the Bearer credential and the fixed version. */
  lemma NotionHeaders(tokenValue: string)
    ensures var r := OutboundHeaders(Some(NotionTokenKey), tokenValue);
      r.Some? && r.value.Keys == {"Content-Type", "Authorization", "Notion-Version"}
      && r.value["Authorization"] == "Bearer " + tokenValue
      && r.value["Notion-Version"] == "2022-06-28"
  {
  }

  /** A time-tracking token gives the JSON content type and a Basic
      credential, and nothing else. */
  lemma TogglHeaders(tokenValue: string)
    ensures var r := OutboundHeaders(Some(TogglTokenKey), tokenValue);
      r.Some? && r.value.Keys == {"Content-Type", "Authorization"}
      && r.value["Authorization"] == BasicValue(tokenValue)
  {
  }

  /** The Basic credential decodes, base 64 then UTF-8, back to
      `<token>:api_token`. */
  lemma BasicValueDecodes(token: string)
    ensures var v := BasicValue(token);
      |v| >= 6 && v[..6] == "Basic "
      && Base64.Decode(v[6..]) == Some(Utf8.Encode(token + ":api_token"))
      && Utf8.Decode(Utf8.Encode(token + ":api_token")) == Some(token + ":api_token")
  {
    var octets := Utf8.Encode(BasicUserPass(token));
    var v := BasicValue(token);
    assert v[6..] == Base64.Encode(octets);
    Base64.DecodeEncode(octets);
    Utf8.DecodeEncode(BasicUserPass(token));
  }

  /** Different tokens give different Basic credentials. */
  lemma BasicValueInjective(t1: string, t2: string)
    requires BasicValue(t1) == BasicValue(t2)
    ensures t1 == t2
  {
    BasicValueDecodes(t1);
    BasicValueDecodes(t2);
    var u1, u2 := BasicUserPass(t1), BasicUserPass(t2);
    assert |u1| == |u2|;
    assert t1 == u1[..|t1|] && t2 == u2[..|t2|];
  }
}
