/**
 * The outbound AgentForce webhook of server/routes.ts: the callback address, the
 * `message_type` default, the audio-URL extraction and the payload that carries them,
 * together with the audio content that the `/api/messages` route builds for it.
 */
module Webhook {
  import opened Wrappers

  /** The fixed AgentForce hook every request is POSTed to. */
  const AgentForceUrl: string := "https://api-f1db6c.stack.tryrelevance.com/latest/agents/hooks/custom-trigger/e7c394c5-f7a3-4655-ab31-eb43eee010a9/da344acf-0036-444e-8c63-5d3970015b94"
  const LocalBaseUrl: string := "http://localhost:5000"
  const CallbackPath: string := "/api/agentforce/callback"
  const DefaultMessageType: string := "text"
  const AudioType: string := "audio"
  /** The literal part of the regular expression `/Audio message: (.+)/`. */
  const AudioMarker: string := "Audio message: "
  /** The cheaper `includes` test made before the regular expression runs. */
  const AudioProbe: string := "Audio message:"

  /** JavaScript truthiness of an optional string: present and not empty. */
  predicate Truthy(s: Option<string>) {
    s.Some? && s.value != ""
  }

  /** The public origin: `https://` and the deployment domain when one is set, else the local server. */
  function BaseUrl(domain: Option<string>): string {
    if Truthy(domain) then "https://" + domain.value else LocalBaseUrl
  }

  /** The address AgentForce is told to call back, written out separately in the source. */
  function CallbackUrl(domain: Option<string>): (r: string)
    ensures r == BaseUrl(domain) + CallbackPath
  {
    if Truthy(domain) then "https://" + domain.value + "/api/agentforce/callback"
    else "http://localhost:5000/api/agentforce/callback"
  }

  /** `messageType || "text"`. */
  function MessageTypeOrDefault(messageType: Option<string>): string {
    if Truthy(messageType) then messageType.value else DefaultMessageType
  }

  /** The default never yields an empty type, keeps a given one and is idempotent. */
  lemma MessageTypeDefaulting(messageType: Option<string>)
    ensures MessageTypeOrDefault(messageType) != ""
    ensures MessageTypeOrDefault(messageType) == DefaultMessageType <==>
            !Truthy(messageType) || messageType.value == DefaultMessageType
    ensures MessageTypeOrDefault(Some(MessageTypeOrDefault(messageType))) == MessageTypeOrDefault(messageType)
  {
  }

  /** The characters JavaScript's `.` does not match: the ECMAScript line terminators. */
  predicate IsLineTerminator(c: char) {
    c == '\n' || c == '\r' || c == '\U{2028}' || c == '\U{2029}'
  }

  predicate OnOneLine(s: string) {
    forall i :: 0 <= i < |s| ==> !IsLineTerminator(s[i])
  }

  /** `s.includes(sub)`. */
  predicate Includes(s: string, sub: string)
    decreases |s|
  {
    (|sub| <= |s| && s[..|sub|] == sub) || (s != [] && Includes(s[1..], sub))
  }

  /** A match of `/Audio message: (.+)/` can start at index `j` of `s`. */
  predicate MatchesAt(s: string, j: int) {
    0 <= j && j + |AudioMarker| < |s| &&
    s[j..j + |AudioMarker|] == AudioMarker && !IsLineTerminator(s[j + |AudioMarker|])
  }

  /** The end of the line holding index `k`: the first line terminator at or after `k`, else `|s|`. */
  function LineEnd(s: string, k: nat): (e: nat)
    requires k <= |s|
    ensures k <= e <= |s|
    ensures OnOneLine(s[k..e])
    ensures e < |s| ==> IsLineTerminator(s[e])
    decreases |s| - k
  {
    if k == |s| || IsLineTerminator(s[k]) then k else LineEnd(s, k + 1)
  }

  /** The leftmost index at or after `from` where a match can start. */
  function FirstMatch(s: string, from: nat): (r: Option<nat>)
    ensures r.Some? ==> from <= r.value && MatchesAt(s, r.value)
    ensures r.Some? ==> forall i :: from <= i < r.value ==> !MatchesAt(s, i)
    ensures r.None? ==> forall i :: from <= i ==> !MatchesAt(s, i)
    decreases |s| - from
  {
    if from + |AudioMarker| >= |s| then None
    else if MatchesAt(s, from) then Some(from)
    else FirstMatch(s, from + 1)
  }

  /**
   * Group 1 of `s.match(/Audio message: (.+)/)`: the search takes the leftmost
   * position where the marker is followed by a character other than a line
   * terminator, and the greedy `.+` runs to the end of that line.
   */
  function MatchAudioUrl(s: string): (r: Option<string>)
    ensures r.Some? <==> exists j :: MatchesAt(s, j)
    ensures r.Some? ==> r.value != "" && OnOneLine(r.value)
    ensures r.Some? ==>
      exists j :: MatchesAt(s, j) && (forall i :: 0 <= i < j ==> !MatchesAt(s, i)) &&
                  r.value == s[j + |AudioMarker|..LineEnd(s, j + |AudioMarker|)]
  {
    match FirstMatch(s, 0)
    case None => None
    case Some(j) => Some(s[j + |AudioMarker|..LineEnd(s, j + |AudioMarker|)])
  }

  /** `audio_url` of the payload (server/routes.ts:238-243). */
  function ExtractAudioUrl(content: string, messageType: Option<string>): Option<string> {
    if messageType == Some(AudioType) && Includes(content, AudioProbe) then MatchAudioUrl(content)
    else None
  }

  lemma {:induction false} MatchImpliesProbe(s: string, j: int)
    requires MatchesAt(s, j)
    ensures Includes(s, AudioProbe)
    decreases j
  {
    if j == 0 {
      assert s[..|AudioProbe|] == s[0..|AudioMarker|][..|AudioProbe|];
    } else {
      assert s[1..][j - 1..j - 1 + |AudioMarker|] == s[j..j + |AudioMarker|];
      MatchImpliesProbe(s[1..], j - 1);
    }
  }

  /**
   * `audio_url` is set exactly when the type is "audio" and some "Audio message: " is
   * followed by a character on the same line; it is then the rest of that line after
   * the leftmost such marker, and it is never empty.
   */
  lemma AudioUrlCharacterised(content: string, messageType: Option<string>)
    ensures ExtractAudioUrl(content, messageType).Some? <==>
            messageType == Some(AudioType) && exists j :: MatchesAt(content, j)
    ensures ExtractAudioUrl(content, messageType).Some? ==>
            var u := ExtractAudioUrl(content, messageType).value;
            u != "" && OnOneLine(u) &&
            exists j :: MatchesAt(content, j) && (forall i :: 0 <= i < j ==> !MatchesAt(content, i)) &&
                        u == content[j + |AudioMarker|..LineEnd(content, j + |AudioMarker|)]
  {
    if messageType == Some(AudioType) && exists j :: MatchesAt(content, j) {
      var j :| MatchesAt(content, j);
      MatchImpliesProbe(content, j);
    }
  }

  /** The body POSTed to AgentForce (server/routes.ts:228-243); `timestamp` is the ISO clock reading. */
  datatype Payload = Payload(
    messageId: string,
    conversationId: Option<string>,
    content: string,
    messageType: string,
    timestamp: string,
    callbackUrl: string,
    audioUrl: Option<string>)

  function BuildPayload(messageId: string, userMessage: string, messageType: Option<string>,
                        conversationId: Option<string>, domain: Option<string>, timestamp: string): (p: Payload)
    ensures p.messageId == messageId && p.content == userMessage && p.conversationId == conversationId
    ensures p.messageType != ""
    ensures p.messageType == MessageTypeOrDefault(messageType) && p.timestamp == timestamp
    ensures p.callbackUrl == BaseUrl(domain) + CallbackPath
    ensures p.audioUrl == ExtractAudioUrl(userMessage, messageType)
    ensures p.audioUrl.Some? ==> p.messageType == AudioType && p.audioUrl.value != ""
  {
    Payload(messageId, conversationId, userMessage, MessageTypeOrDefault(messageType), timestamp,
            CallbackUrl(domain), ExtractAudioUrl(userMessage, messageType))
  }

  /**
   * The text the `/api/messages` route hands to the AI (server/routes.ts:103-111): an
   * audio message with an upload path becomes a marker line naming its public URL.
   */
  function ContentForAI(content: string, messageType: Option<string>, audioUrl: Option<string>,
                        domain: Option<string>): string
  {
    if messageType == Some(AudioType) && Truthy(audioUrl) then AudioMarker + BaseUrl(domain) + audioUrl.value
    else content
  }

  lemma OnOneLineConcat(a: string, b: string)
    requires OnOneLine(a) && OnOneLine(b)
    ensures OnOneLine(a + b)
  {
    forall i | 0 <= i < |a + b| ensures !IsLineTerminator((a + b)[i]) {
      if i >= |a| {
        assert (a + b)[i] == b[i - |a|];
      }
    }
  }

  lemma {:induction false} LineEndOnOneLine(s: string, k: nat)
    requires k <= |s| && OnOneLine(s[k..])
    ensures LineEnd(s, k) == |s|
    decreases |s| - k
  {
    if k < |s| {
      assert s[k] == s[k..][0];
      assert s[k + 1..] == s[k..][1..];
      LineEndOnOneLine(s, k + 1);
    }
  }

  /** A content that is the marker followed by one line of text yields that text. */
  lemma MarkerLineYieldsUrl(url: string)
    requires url != "" && OnOneLine(url)
    ensures ExtractAudioUrl(AudioMarker + url, Some(AudioType)) == Some(url)
  {
    var s := AudioMarker + url;
    var k := |AudioMarker|;
    assert s[0..k] == AudioMarker;
    assert s[k] == url[0];
    assert MatchesAt(s, 0);
    assert FirstMatch(s, 0) == Some(0);
    assert s[k..] == url;
    LineEndOnOneLine(s, k);
    assert s[k..LineEnd(s, k)] == url;
    assert MatchAudioUrl(s) == Some(url);
    MatchImpliesProbe(s, 0);
  }

  /**
   * Round trip between the route and the webhook: the audio content built for an
   * upload path yields, as `audio_url`, the public URL it was built from, provided
   * neither the domain nor the path holds a line break.
   */
  lemma AudioUrlRoundTrip(content: string, audioUrl: string, domain: Option<string>)
    requires audioUrl != ""
    requires OnOneLine(domain.GetOr("")) && OnOneLine(audioUrl)
    ensures ExtractAudioUrl(ContentForAI(content, Some(AudioType), Some(audioUrl), domain), Some(AudioType))
            == Some(BaseUrl(domain) + audioUrl)
  {
    var url := BaseUrl(domain) + audioUrl;
    assert ContentForAI(content, Some(AudioType), Some(audioUrl), domain) == AudioMarker + url;
    if Truthy(domain) {
      assert forall i :: 0 <= i < |domain.value| ==> ("https://" + domain.value)[i + 8] == domain.value[i];
      assert OnOneLine("https://" + domain.value);
    }
    OnOneLineConcat(BaseUrl(domain), audioUrl);
    MarkerLineYieldsUrl(url);
  }

  /** A marker followed by an upload URL yields that URL, and only for an audio message. */
  lemma AudioUrlExample()
    ensures ExtractAudioUrl("Audio message: https://x/y.webm", Some(AudioType)) == Some("https://x/y.webm")
    ensures ExtractAudioUrl("Audio message: https://x/y.webm", Some(DefaultMessageType)) == None
  {
    var url := "https://x/y.webm";
    assert "Audio message: https://x/y.webm" == AudioMarker + url;
    MarkerLineYieldsUrl(url);
  }

  /** A bare marker, with or without its trailing space, carries no URL. */
  lemma BareMarkerHasNoAudioUrl()
    ensures ExtractAudioUrl("Audio message:", Some(AudioType)) == None
    ensures ExtractAudioUrl("Audio message: ", Some(AudioType)) == None
  {
  }
}
