/**
 * Address normalisation of SafariApp.swift: `loadUrl` prefixes "https://"
 * unless the text already starts, case-insensitively, with "http".
 */
module SafariApp {
  import opened Text

  /** The address `loadUrl` hands to `URL(string:)` for the typed text `urlString`. */
  function NormalizeUrl(urlString: string): (formatted: string)
    ensures formatted == urlString || formatted == "https://" + urlString
    ensures HasPrefix(Lowercased(formatted), "http")
  {
    if HasPrefix(Lowercased(urlString), "http") then urlString
    else
      LowercasedAppend("https://", urlString);
      "https://" + urlString
  }

  /** The text is kept exactly when it already starts with "http" in any case; otherwise it gains the prefix. */
  lemma NormalizeUrlKeepsHttp(urlString: string)
    ensures NormalizeUrl(urlString) == urlString <==> HasPrefix(Lowercased(urlString), "http")
    ensures !HasPrefix(Lowercased(urlString), "http") ==> NormalizeUrl(urlString) == "https://" + urlString
  {
    if !HasPrefix(Lowercased(urlString), "http") {
      assert |NormalizeUrl(urlString)| == |urlString| + 8;
    }
  }

  /** Normalising an already normalised address changes nothing. */
  lemma NormalizeUrlIdempotent(urlString: string)
    ensures NormalizeUrl(NormalizeUrl(urlString)) == NormalizeUrl(urlString)
  {
  }

  /** The test is for "http" in any case, not "http://": an upper-case scheme is kept. */
  lemma NormalizeUrlKeepsUpperCaseScheme()
    ensures NormalizeUrl("HTTPS://x") == "HTTPS://x"
  {
    assert Lowercased("HTTPS://x") == "https://x";
  }

  /** A host that merely starts with "http" is left without a scheme. */
  lemma NormalizeUrlKeepsHttpHost()
    ensures NormalizeUrl("httpbin.org") == "httpbin.org"
  {
    assert Lowercased("httpbin.org") == "httpbin.org";
  }

  /** Anything else gains the prefix, even when it has another scheme. */
  lemma NormalizeUrlPrefixesOthers()
    ensures NormalizeUrl("apple.com") == "https://apple.com"
    ensures NormalizeUrl("ftp://x") == "https://ftp://x"
  {
    assert Lowercased("apple.com")[0] != 'h';
    assert Lowercased("ftp://x")[0] != 'h';
  }

  /** The browser's model; only the address field is modelled. */
  class SafariViewModel {
    var urlString: string

    constructor ()
      ensures urlString == "https://www.apple.com"
    {
      urlString := "https://www.apple.com";
    }

    /** Works on a local copy: `urlString` itself is left as typed. */
    method LoadUrl() returns (formatted: string)
      ensures formatted == NormalizeUrl(urlString)
    {
      formatted := urlString;
      if !HasPrefix(Lowercased(formatted), "http") {
        formatted := "https://" + formatted;
      }
    }
  }
}
