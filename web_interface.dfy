/** The captive portal's pages (src/web/web_interface.cpp): the network list of the main
    page, and the `/connect` handler that stores the chosen credentials. */
module WebInterface {
  import opened Globals

  /** What `server.send(status, contentType, body)` sends. */
  datatype HttpReply = HttpReply(status: int, contentType: string, body: string)

  const NO_NETWORKS_ITEM := "<li>No networks found. You can still enter SSID manually below.</li>"
  /** At most this many scanned networks are listed. */
  const LISTED_MAX: nat := 3
  const QUOTE_ENTITY := "&quot;"
  const MISSING_ARGS_PAGE := "<h1>Error: Missing SSID or password</h1>"

  /** Number of `"` in `s`. */
  function QuoteCount(s: string): nat {
    if s == [] then 0 else (if s[0] == '"' then 1 else 0) + QuoteCount(s[1..])
  }

  lemma {:induction false} QuoteCountAppend(a: string, b: string)
    ensures QuoteCount(a + b) == QuoteCount(a) + QuoteCount(b)
  {
    if a == [] {
      assert a + b == b;
    } else {
      assert (a + b)[1..] == a[1..] + b;
      QuoteCountAppend(a[1..], b);
    }
  }

  lemma {:induction false} QuoteFreeCountsZero(s: string)
    requires '"' !in s
    ensures QuoteCount(s) == 0
  {
    if s != [] {
      assert s[1..] == s[1..] && forall k :: 0 <= k < |s| - 1 ==> s[1..][k] == s[k + 1];
      QuoteFreeCountsZero(s[1..]);
    }
  }

  /** `ssid.replace("\"", "&quot;")`: every `"` becomes `&quot;`, every other character
      stays as it is. */
  function EscapeQuotes(s: string): (r: string)
    ensures '"' !in r
    ensures |r| == |s| + 5 * QuoteCount(s)
  {
    if s == [] then []
    else
      (if s[0] == '"' then QUOTE_ENTITY else [s[0]]) + EscapeQuotes(s[1..])
  }

  /** Escaping works character by character, so it distributes over concatenation. */
  lemma {:induction false} EscapeAppend(a: string, b: string)
    ensures EscapeQuotes(a + b) == EscapeQuotes(a) + EscapeQuotes(b)
  {
    if a == [] {
      assert a + b == b;
    } else {
      assert (a + b)[1..] == a[1..] + b;
      EscapeAppend(a[1..], b);
    }
  }

  /** A string without quotes is left unchanged, and only such strings are. */
  lemma {:induction false} EscapeFixesExactlyQuoteFree(s: string)
    ensures EscapeQuotes(s) == s <==> '"' !in s
  {
    if s != [] {
      EscapeFixesExactlyQuoteFree(s[1..]);
      assert s == [s[0]] + s[1..];
    }
  }

  /** A single character: `"` becomes `&quot;`, any other stays. With `EscapeAppend` this
      determines the escaped form of every string. */
  lemma EscapeChar(c: char)
    ensures EscapeQuotes([c]) == if c == '"' then QUOTE_ENTITY else [c]
  {
    assert [c][1..] == [];
  }

  /** Escaping an escaped SSID changes nothing more. */
  lemma EscapeIdempotent(s: string)
    ensures EscapeQuotes(EscapeQuotes(s)) == EscapeQuotes(s)
  {
    EscapeFixesExactlyQuoteFree(EscapeQuotes(s));
  }

  // The fixed pieces of a list entry, split at the two `"` that delimit its onclick attribute.
  const ITEM_OPEN := "<li><a href='#' onclick="
  const CALL_OPEN := "showForm('"
  const CALL_CLOSE := "')"
  const LINK_OPEN := ">"
  const ITEM_CLOSE := "</a></li>"

  /** One entry of the network list,
      `<li><a href='#' onclick="showForm('S')">S</a></li>` with S the SSID with each `"`
      escaped. Nothing else is escaped: an SSID holding `'` or `\` breaks the script call,
      and one holding `<` or `&` is read as markup in the link text. */
  function NetworkItem(ssid: string): string {
    var s := EscapeQuotes(ssid);
    ITEM_OPEN + "\"" + CALL_OPEN + s + CALL_CLOSE + "\"" + LINK_OPEN + s + ITEM_CLOSE
  }

  /** Two quote characters around quote-free pieces: the generic form of a list entry. */
  lemma {:induction false} TwoQuotesAround(p1: string, p2: string, s: string, p3: string, p4: string, p5: string)
    requires '"' !in p1 && '"' !in p2 && '"' !in s && '"' !in p3 && '"' !in p4 && '"' !in p5
    ensures QuoteCount(p1 + "\"" + p2 + s + p3 + "\"" + p4 + s + p5) == 2
  {
    var q := "\"";
    assert QuoteCount(q) == 1 by { assert q[1..] == []; }
    QuoteFreeCountsZero(p1);
    QuoteFreeCountsZero(p2);
    QuoteFreeCountsZero(s);
    QuoteFreeCountsZero(p3);
    QuoteFreeCountsZero(p4);
    QuoteFreeCountsZero(p5);
    QuoteCountAppend(p1, q);
    QuoteCountAppend(p1 + q, p2);
    QuoteCountAppend(p1 + q + p2, s);
    QuoteCountAppend(p1 + q + p2 + s, p3);
    QuoteCountAppend(p1 + q + p2 + s + p3, q);
    QuoteCountAppend(p1 + q + p2 + s + p3 + q, p4);
    QuoteCountAppend(p1 + q + p2 + s + p3 + q + p4, s);
    QuoteCountAppend(p1 + q + p2 + s + p3 + q + p4 + s, p5);
  }

  /** Whatever the SSID, an entry holds exactly the two `"` that delimit its onclick
      attribute, so no SSID can end the attribute early. */
  lemma ItemQuotesOnlyDelimitAttribute(ssid: string)
    ensures QuoteCount(NetworkItem(ssid)) == 2
  {
    TwoQuotesAround(ITEM_OPEN, CALL_OPEN, EscapeQuotes(ssid), CALL_CLOSE, LINK_OPEN, ITEM_CLOSE);
  }

  /** How many scanned networks the loop lists: `min(networkCount, 3)`, none when negative. */
  function ListedCount(networkCount: int): (k: nat)
    ensures k <= LISTED_MAX
    ensures networkCount <= 0 ==> k == 0
    ensures 0 <= networkCount <= LISTED_MAX ==> k == networkCount
    ensures networkCount >= LISTED_MAX ==> k == LISTED_MAX
  {
    if networkCount <= 0 then 0 else if networkCount < LISTED_MAX then networkCount else LISTED_MAX
  }

  /** The "no networks" notice, present exactly when the scan found nothing. */
  function Notice(networkCount: int): seq<string> {
    if networkCount == 0 then [NO_NETWORKS_ITEM] else []
  }

  /** One entry for each of the first `k` names, in order. */
  function Entries(names: seq<string>, k: nat): (items: seq<string>)
    requires k <= |names|
    ensures |items| == k && forall i :: 0 <= i < k ==> items[i] == NetworkItem(names[i])
  {
    if k == 0 then [] else Entries(names, k - 1) + [NetworkItem(names[k - 1])]
  }

  /** The list items of the main page: the "no networks" notice when the count is zero,
      then one entry for each of the first `min(networkCount, 3)` names, in order. */
  function ListItems(names: seq<string>, networkCount: int): (items: seq<string>)
    requires |names| >= LISTED_MAX
    ensures networkCount == 0 ==> items == [NO_NETWORKS_ITEM]
    ensures networkCount != 0 ==> |items| == ListedCount(networkCount)
    ensures networkCount != 0 ==> forall i :: 0 <= i < |items| ==> items[i] == NetworkItem(names[i])
  {
    Notice(networkCount) + Entries(names, ListedCount(networkCount))
  }

  /** A failed scan (negative count) lists nothing at all, not even the "no networks"
      notice. */
  lemma FailedScanListsNothing(names: seq<string>, networkCount: int)
    requires |names| >= LISTED_MAX && networkCount < 0
    ensures ListItems(names, networkCount) == []
  {
  }

  /** The items written one after the other. */
  function Concat(items: seq<string>): string {
    if items == [] then "" else Concat(items[..|items| - 1]) + items[|items| - 1]
  }

  /** `html` with the entries for the first `k` names appended, one after the other. */
  function WithEntries(html: string, names: seq<string>, k: nat): string
    requires k <= |names|
  {
    if k == 0 then html else WithEntries(html, names, k - 1) + NetworkItem(names[k - 1])
  }

  /** Appending the entries one by one to the written-out `prefix` writes out `prefix`
      followed by the entries. */
  lemma {:induction false} WithEntriesWritesEntries(prefix: seq<string>, names: seq<string>, k: nat)
    requires k <= |names|
    ensures WithEntries(Concat(prefix), names, k) == Concat(prefix + Entries(names, k))
  {
    if k == 0 {
      assert prefix + [] == prefix;
    } else {
      WithEntriesWritesEntries(prefix, names, k - 1);
      var shorter, item := prefix + Entries(names, k - 1), NetworkItem(names[k - 1]);
      assert prefix + Entries(names, k) == shorter + [item];
      ConcatSnoc(shorter, item);
    }
  }

  /** Writing out one more item appends it. */
  lemma ConcatSnoc(items: seq<string>, item: string)
    ensures Concat(items + [item]) == Concat(items) + item
  {
    assert (items + [item])[..|items|] == items;
  }

  lemma AppendToEmpty(s: string)
    ensures "" + s == s
  {
  }

  /** The notice written out. */
  lemma NoticeWritten(networkCount: int)
    ensures Concat(Notice(networkCount)) == if networkCount == 0 then NO_NETWORKS_ITEM else ""
  {
    if networkCount == 0 {
      assert [NO_NETWORKS_ITEM][..0] == [];
    }
  }

  /** The list fragment the loop writes is the list items written out. */
  lemma MainPageListIsItems(names: seq<string>, networkCount: int)
    requires |names| >= LISTED_MAX
    ensures WithEntries(Concat(Notice(networkCount)), names, ListedCount(networkCount))
              == Concat(ListItems(names, networkCount))
  {
    WithEntriesWritesEntries(Notice(networkCount), names, ListedCount(networkCount));
  }

  /** The network list fragment of `showMainPage`, sent with status 200. The fixed markup
      around it (styles, the password form, the script) is not modelled. */
  method ShowMainPage(g: Device) returns (reply: HttpReply)
    requires g.Valid()
    ensures reply.status == 200 && reply.contentType == "text/html"
    ensures reply.body == Concat(ListItems(g.networks[..], g.networkCount))
  {
    var html := "";
    if g.networkCount == 0 {
      html := html + NO_NETWORKS_ITEM;
      AppendToEmpty(NO_NETWORKS_ITEM);
    }
    ghost var notice := html;
    NoticeWritten(g.networkCount);
    assert notice == Concat(Notice(g.networkCount));
    var count := if g.networkCount < 3 then g.networkCount else 3;
    var i := 0;
    while i < count
      invariant 0 <= i <= ListedCount(g.networkCount)
      invariant html == WithEntries(notice, g.networks[..], i)
    {
      var ssid := g.networks[i];
      ssid := EscapeQuotes(ssid);
      ghost var before := html;
      html := html + (ITEM_OPEN + "\"" + CALL_OPEN + ssid + CALL_CLOSE + "\"" + LINK_OPEN + ssid + ITEM_CLOSE);
      assert html == before + NetworkItem(g.networks[..][i]);
      i := i + 1;
    }
    assert i == ListedCount(g.networkCount);
    MainPageListIsItems(g.networks[..], g.networkCount);
    reply := HttpReply(200, "text/html", html);
  }

  // The fixed head and tail of the page confirming a connection.
  const CONNECT_HEAD := "<!DOCTYPE html><html><head><meta name='viewport' content='width=device-width, initial-scale=1'>"
    + "<style>body{font-family:sans-serif;padding:2em;text-align:center;}h2{font-size:1.5em;}</style></head><body>"
  const CONNECT_TAIL := "<p>You can close this window.</p>" + "</body></html>"

  /** The page confirming that the portal will join `ssid`. */
  function ConnectingPage(ssid: string): string {
    CONNECT_HEAD + "<h2>Connecting to " + ssid + "...</h2>" + CONNECT_TAIL
  }

  /** `handleConnect`: with both form fields, remember them, persist them under
      wifi/ssid and wifi/pass, ask the main loop to connect, and answer 200; with either
      missing, answer 400 and change nothing. */
  method HandleConnect(g: Device, args: map<string, string>) returns (reply: HttpReply)
    requires g.Valid()
    modifies g
    ensures g.Valid()
    ensures "ssid" in args && "password" in args ==>
              && g.selectedSSID == args["ssid"] && g.enteredPassword == args["password"]
              && g.prefs == old(g.prefs)[SSID_KEY := args["ssid"]][PASS_KEY := args["password"]]
              && g.shouldConnectToWiFi
              && reply == HttpReply(200, "text/html", ConnectingPage(args["ssid"]))
    ensures !("ssid" in args && "password" in args) ==>
              && g.selectedSSID == old(g.selectedSSID) && g.enteredPassword == old(g.enteredPassword)
              && g.prefs == old(g.prefs) && g.shouldConnectToWiFi == old(g.shouldConnectToWiFi)
              && reply == HttpReply(400, "text/html", MISSING_ARGS_PAGE)
    ensures g.networks == old(g.networks) && g.networkCount == old(g.networkCount)
    ensures g.mode == old(g.mode) && g.joining == old(g.joining)
    ensures g.stationConnected == old(g.stationConnected) && g.softAp == old(g.softAp)
    ensures g.dnsRunning == old(g.dnsRunning) && g.serverRunning == old(g.serverRunning)
  {
    if "ssid" in args && "password" in args {
      g.selectedSSID := args["ssid"];
      g.enteredPassword := args["password"];
      g.prefs := g.prefs[SSID_KEY := g.selectedSSID];
      g.prefs := g.prefs[PASS_KEY := g.enteredPassword];
      g.shouldConnectToWiFi := true;
      reply := HttpReply(200, "text/html", ConnectingPage(g.selectedSSID));
    } else {
      reply := HttpReply(400, "text/html", MISSING_ARGS_PAGE);
    }
  }
}
