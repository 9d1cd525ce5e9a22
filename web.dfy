/** The destination update of the web front end (app/web.py, route
    `set_target`): the operator's text is trimmed, stripped of trailing
    slashes, given an `http://` scheme unless it has one, and handed to the
    client, which strips trailing slashes once more. There is no other
    validation. */
module Web {
  import opened Text
  import opened Esp32Led

  /** `url.startswith("http://") or url.startswith("https://")`. */
  predicate HasScheme(url: string): (has: bool)
    ensures has <==> (|url| >= 7 && url[..7] == "http://") || (|url| >= 8 && url[..8] == "https://")
  {
    StartsWith(url, "http://") || StartsWith(url, "https://")
  }

  /** The operator's text with surrounding whitespace, then trailing slashes, removed. */
  function Trimmed(raw: string): (core: string)
    ensures core == [] || (!IsSpace(core[0]) && core[|core| - 1] != '/')
  {
    RStripSlash(Strip(raw))
  }

  /** The URL `set_target` hands to the client: the trimmed text, prefixed
      with "http://" unless it already names the http or https scheme. */
  function TargetUrl(raw: string): (url: string)
    ensures HasScheme(url)
    ensures url == Trimmed(raw) || url == "http://" + Trimmed(raw)
  {
    var core := Trimmed(raw);
    if !StartsWith(core, "http://") && !StartsWith(core, "https://") then "http://" + core else core
  }

  /** `request.form.get("esp32_url", "")`. */
  function FormField(form: map<string, string>): (raw: string)
    ensures "esp32_url" in form ==> raw == form["esp32_url"]
    ensures "esp32_url" !in form ==> raw == ""
  {
    if "esp32_url" in form then form["esp32_url"] else ""
  }

  /** The destination update of `set_target`. */
  method SetTarget(client: Esp32LedClient, form: map<string, string>)
    modifies client`base_url
    ensures client.base_url == RStripSlash(TargetUrl(FormField(form)))
  {
    var url := RStripSlash(Strip(FormField(form)));
    if !StartsWith(url, "http://") && !StartsWith(url, "https://") {
      url := "http://" + url;
    }
    client.SetDestino(url);
  }

  /** A scheme is added exactly when the trimmed text has none, and then it
      is "http://" and nothing else; the address itself is never altered. */
  lemma TargetUrlPrefix(raw: string)
    ensures HasScheme(Trimmed(raw)) ==> TargetUrl(raw) == Trimmed(raw)
    ensures !HasScheme(Trimmed(raw)) ==> TargetUrl(raw) == "http://" + Trimmed(raw)
  {
  }

  /** A URL that already has a scheme, no surrounding whitespace and no
      trailing slash passes through unchanged. */
  lemma TargetUrlFixedPoint(url: string)
    requires HasScheme(url)
    requires !IsSpace(url[0]) && !IsSpace(url[|url| - 1]) && url[|url| - 1] != '/'
    ensures TargetUrl(url) == url
  {
    StripNoSurrounding(url);
    RStripSlashNoTrailing(url);
  }

  /** Whitespace is trimmed before slashes are stripped, so a space in front
      of a trailing slash survives. */
  lemma TrimBeforeSlashExample()
    ensures TargetUrl("x /") == "http://x "
  {
    StripNoSurrounding("x /");
    assert RStripSlash("x /") == "x ";
  }

  /** A bare host and port gets the http scheme. */
  lemma HostPortExample()
    ensures TargetUrl("192.168.10.2:80") == "http://192.168.10.2:80"
  {
    StripNoSurrounding("192.168.10.2:80");
    RStripSlashNoTrailing("192.168.10.2:80");
  }

  /** Surrounding spaces and a trailing slash are dropped from a URL with a scheme. */
  lemma TrailingSlashExample()
    ensures TargetUrl(" http://x/ ") == "http://x"
  {
    StripHttpX();
    SlashHttpX();
  }

  lemma StripHttpX()
    ensures Strip(" http://x/ ") == "http://x/"
  {
    assert LeadingSpaces(" http://x/ ") == 1;
  }

  lemma SlashHttpX()
    ensures RStripSlash("http://x/") == "http://x"
  {
    assert "http://x/"[..8] == "http://x";
    RStripSlashNoTrailing("http://x");
  }

  /** The URL handed over ends in a slash only when it is the bare scheme
      "http://", which is what text made only of whitespace and slashes gives. */
  lemma TargetUrlBare(raw: string)
    ensures TargetUrl(raw) == "http://" <==> Trimmed(raw) == []
    ensures (TargetUrl(raw)[|TargetUrl(raw)| - 1] == '/') <==> Trimmed(raw) == []
  {
    var core, url := Trimmed(raw), TargetUrl(raw);
    if core != [] {
      assert url[|url| - 1] == core[|core| - 1];
    }
  }

  /** What the client stores after `set_target`: the handed-over URL itself,
      except that the bare "http://" loses its slashes and becomes "http:". */
  lemma StoredDestination(raw: string)
    ensures Trimmed(raw) == [] ==> RStripSlash(TargetUrl(raw)) == "http:"
    ensures Trimmed(raw) != [] ==> RStripSlash(TargetUrl(raw)) == TargetUrl(raw)
  {
    TargetUrlBare(raw);
    var url := TargetUrl(raw);
    if Trimmed(raw) == [] {
      BareSchemeStripped();
    } else {
      RStripSlashNoTrailing(url);
    }
  }

  /** `rstrip("/")` takes both slashes of "http://". */
  lemma BareSchemeStripped()
    ensures RStripSlash("http://") == "http:"
  {
    assert "http://"[..6] == "http:/";
    assert "http:/"[..5] == "http:";
    RStripSlashNoTrailing("http:");
  }

  /** Empty or whitespace-only text is accepted: the client is handed
      "http://" and stores "http:". */
  lemma BlankTargetAccepted(raw: string)
    requires forall i :: 0 <= i < |raw| ==> IsSpace(raw[i])
    ensures TargetUrl(raw) == "http://"
    ensures RStripSlash(TargetUrl(raw)) == "http:"
  {
    assert LeadingSpaces(raw) == |raw|;
    StoredDestination(raw);
  }
}
