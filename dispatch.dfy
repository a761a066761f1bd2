/**
  The command dispatcher of the dashboard's command line: `processCommand`
  turns the text typed after the prompt into one of three lookup URLs, or
  into a "Command not recognized" message box.

  The text is matched exactly (a Go `switch` on the whole string), so the
  prompt ": " is part of every recognised command and nothing is trimmed.
  The URL is the service's fixed prefix followed by the SHA-256 text, joined
  without any escaping.
*/
module Dispatch {

  const VirusTotalPrefix: string := "https://virustotal.com/gui/file/"
  const HybridAnalysisPrefix: string := "https://www.hybrid-analysis.com/search?query="
  const MalsharePrefix: string := "https://malshare.com/search.php?query="

  /** The text of the message box shown for any other command. */
  const NotRecognized: string := "Command not recognized. Type \"help\" to see available commands"

  /** What one submitted command does: open a URL in the browser, or show a message box. */
  datatype Action =
    | OpenUrl(url: string)
    | Unrecognized(cmd: string, message: string)

  /** The lookup services as a table from command text to URL prefix. */
  const Registry: map<string, string> :=
    map[": vt" := VirusTotalPrefix, ": ha" := HybridAnalysisPrefix, ": ms" := MalsharePrefix]

  /** The service tokens listed in the "Analysis Services" panel. */
  const AdvertisedTokens: seq<string> := ["vt", "ha", "ms", "vs"]

  /** `processCommand(cmd, sha256h)`: the side effect is returned as an `Action`. */
  function ProcessCommand(cmd: string, sha256h: string): (a: Action)
    ensures a.OpenUrl? <==> cmd in Registry
    ensures a.OpenUrl? ==> a.url == Registry[cmd] + sha256h
    ensures a.Unrecognized? ==> a.cmd == cmd && a.message == NotRecognized
  {
    match cmd
    case ": vt" => OpenUrl(VirusTotalPrefix + sha256h)
    case ": ha" => OpenUrl(HybridAnalysisPrefix + sha256h)
    case ": ms" => OpenUrl(MalsharePrefix + sha256h)
    case _ => Unrecognized(cmd, NotRecognized)
  }

  /** The three recognised commands and their exact URLs. */
  lemma RecognisedCommands(sha256h: string)
    ensures ProcessCommand(": vt", sha256h) == OpenUrl("https://virustotal.com/gui/file/" + sha256h)
    ensures ProcessCommand(": ha", sha256h) == OpenUrl("https://www.hybrid-analysis.com/search?query=" + sha256h)
    ensures ProcessCommand(": ms", sha256h) == OpenUrl("https://malshare.com/search.php?query=" + sha256h)
  {
  }

  /** Matching is exact: near misses, the advertised "vs" service and "help" are all rejected. */
  lemma NearMissesUnrecognized(sha256h: string)
    ensures ProcessCommand(": vs", sha256h) == Unrecognized(": vs", NotRecognized)
    ensures ProcessCommand(": help", sha256h) == Unrecognized(": help", NotRecognized)
    ensures ProcessCommand(": vt ", sha256h) == Unrecognized(": vt ", NotRecognized)
    ensures ProcessCommand("vt", sha256h) == Unrecognized("vt", NotRecognized)
    ensures ProcessCommand(": VT", sha256h) == Unrecognized(": VT", NotRecognized)
  {
  }

  /** Of the services the panel advertises, exactly "vs" has no command behind it. */
  lemma AdvertisedButUnserved(sha256h: string)
    ensures forall i :: 0 <= i < |AdvertisedTokens| ==>
      (ProcessCommand(": " + AdvertisedTokens[i], sha256h).OpenUrl? <==> AdvertisedTokens[i] != "vs")
  {
    assert ": " + "vt" == ": vt";
    assert ": " + "ha" == ": ha";
    assert ": " + "ms" == ": ms";
    assert ": " + "vs" == ": vs";
  }

  /** The hash is recovered from an opened URL by dropping the service prefix. */
  lemma UrlCarriesHash(cmd: string, sha256h: string)
    requires cmd in Registry
    ensures |Registry[cmd]| <= |ProcessCommand(cmd, sha256h).url|
    ensures ProcessCommand(cmd, sha256h).url[|Registry[cmd]|..] == sha256h
  {
  }

  /** The service prefixes are all longer than 8 and differ at index 8, so that one character names the service. */
  lemma PrefixCharNamesService(c1: string, c2: string)
    requires c1 in Registry && c2 in Registry
    ensures |Registry[c1]| > 8 && |Registry[c2]| > 8
    ensures Registry[c1][8] == Registry[c2][8] <==> c1 == c2
  {
  }

  /**
    Opened URLs determine both the command and the hash: two submissions open
    the same URL only when they are the same command for the same hash.
  */
  lemma OpenUrlInjective(c1: string, h1: string, c2: string, h2: string)
    requires ProcessCommand(c1, h1).OpenUrl? && ProcessCommand(c2, h2).OpenUrl?
    requires ProcessCommand(c1, h1) == ProcessCommand(c2, h2)
    ensures c1 == c2 && h1 == h2
  {
    var u := ProcessCommand(c1, h1).url;
    PrefixCharNamesService(c1, c2);
    assert u[8] == Registry[c1][8];
    assert u[8] == Registry[c2][8];
    UrlCarriesHash(c1, h1);
    UrlCarriesHash(c2, h2);
  }

  /** Unrecognised input carries the raw text back, whatever the hash. */
  lemma UnrecognizedIndependentOfHash(cmd: string, h1: string, h2: string)
    requires cmd !in Registry
    ensures ProcessCommand(cmd, h1) == ProcessCommand(cmd, h2) == Unrecognized(cmd, NotRecognized)
  {
  }
}
