/**
 * The WoW token price poller of main.go: every tick it fetches the current token,
 * posts an alert when both its timestamp and its price differ from the last one
 * seen, and then remembers the fetched token.
 */
module TokenAlert {
  import opened Wrappers
  import opened GoStrings

  /** The price API's answer; the price is in copper. */
  datatype WowToken = WowToken(lastUpdatedTimestamp: int, price: int)

  /** Go's zero value `WowToken{}`, which `GetToken` returns with every error. */
  const ZeroToken := WowToken(0, 0)

  const CopperPerGold := 10000
  const AlertGuild := "Pixelbased Lifeforms"
  const AlertChannel := "wow-token"

  /** A `bot.SendMessage(guild, channel, text)` call. */
  datatype Post = Post(guild: string, channel: string, text: string)

  /**
   * Go's `copper / 10000`, which truncates toward zero (Dafny's `/` is Euclidean and
   * would round a negative amount down).
   */
  function ToGold(copper: int): (gold: int)
    ensures copper >= 0 ==> 0 <= gold && gold * CopperPerGold <= copper < gold * CopperPerGold + CopperPerGold
    ensures copper < 0 ==> gold <= 0 && gold * CopperPerGold - CopperPerGold < copper <= gold * CopperPerGold
  {
    if copper >= 0 then copper / CopperPerGold else -((-copper) / CopperPerGold)
  }

  /** The token the loop goes on with: the fetched one, or the zero token on error. */
  function TokenOf(fetched: Result<WowToken, string>): WowToken
  {
    match fetched
    case Success(t) => t
    case Failure(_) => ZeroToken
  }

  /** The guard of the alert. */
  predicate Changed(last: WowToken, token: WowToken)
  {
    last.lastUpdatedTimestamp != token.lastUpdatedTimestamp && last.price != token.price
  }

  /** `diff`: the price change in whole gold, truncated toward zero. */
  function GoldDiff(last: WowToken, token: WowToken): int
  {
    ToGold(token.price - last.price)
  }

  /** `diffPrefix` followed by `%d` of the difference. */
  function DiffText(diff: int): string
  {
    (if diff > 0 then "+" else "") + Itoa(diff)
  }

  function AlertText(last: WowToken, token: WowToken): string
  {
    var gold := Itoa(ToGold(token.price));
    if last.lastUpdatedTimestamp == 0 then
      "Wow token price: " + gold + "g (bot startup)"
    else
      "Wow token price updated: " + gold + "g (" + DiffText(GoldDiff(last, token)) + ")"
  }

  /** What one tick posts, given the remembered and the fetched token. */
  function Alert(last: WowToken, token: WowToken): (r: Option<Post>)
    ensures r.Some? <==> Changed(last, token)
    ensures r.Some? ==> r.value.guild == AlertGuild && r.value.channel == AlertChannel
  {
    if Changed(last, token) then Some(Post(AlertGuild, AlertChannel, AlertText(last, token))) else None
  }

  function PostsOf(p: Option<Post>): seq<Post>
  {
    match p
    case Some(x) => [x]
    case None => []
  }

  /** The remembered token after the ticks that fetched `fetches`. */
  function LastSeen(start: WowToken, fetches: seq<Result<WowToken, string>>): WowToken
  {
    if |fetches| == 0 then start else TokenOf(fetches[|fetches| - 1])
  }

  /** Everything posted over the ticks that fetched `fetches`, in order. */
  function Alerts(start: WowToken, fetches: seq<Result<WowToken, string>>): seq<Post>
    decreases |fetches|
  {
    if |fetches| == 0 then []
    else
      var before := fetches[..|fetches| - 1];
      Alerts(start, before) + PostsOf(Alert(LastSeen(start, before), TokenOf(fetches[|fetches| - 1])))
  }

  /** The goroutine's state: the token captured as `lastToken`. */
  class TokenPoller {
    var lastToken: WowToken

    constructor ()
      ensures lastToken == ZeroToken
    {
      lastToken := ZeroToken;
    }

    /** One pass of the loop body, after the ticker fired and `GetToken` answered. */
    method Tick(fetched: Result<WowToken, string>) returns (post: Option<Post>)
      modifies this
      ensures post == Alert(old(lastToken), TokenOf(fetched))
      ensures lastToken == TokenOf(fetched)
    {
      var token := ZeroToken;
      if fetched.Success? {
        token := fetched.value;
      }
      post := None;
      if lastToken.lastUpdatedTimestamp != token.lastUpdatedTimestamp && lastToken.price != token.price {
        var diff := ToGold(token.price - lastToken.price);
        var diffPrefix := "";
        if diff > 0 {
          diffPrefix := "+";
        }
        var msg;
        if lastToken.lastUpdatedTimestamp == 0 {
          msg := "Wow token price: " + Itoa(ToGold(token.price)) + "g (bot startup)";
        } else {
          var head := "Wow token price updated: " + Itoa(ToGold(token.price)) + "g (";
          msg := head + diffPrefix + Itoa(diff) + ")";
          assert head + diffPrefix + Itoa(diff) == head + DiffText(diff);
        }
        post := Some(Post(AlertGuild, AlertChannel, msg));
      }
      lastToken := token;
    }

    /** The `for` loop over a finite run of ticks. */
    method Run(fetches: seq<Result<WowToken, string>>) returns (posts: seq<Post>)
      modifies this
      ensures lastToken == LastSeen(old(lastToken), fetches)
      ensures posts == Alerts(old(lastToken), fetches)
    {
      posts := [];
      var i := 0;
      while i < |fetches|
        invariant 0 <= i <= |fetches|
        invariant lastToken == LastSeen(old(lastToken), fetches[..i])
        invariant posts == Alerts(old(lastToken), fetches[..i])
      {
        var post := Tick(fetches[i]);
        assert fetches[..i + 1][..i] == fetches[..i];
        posts := posts + PostsOf(post);
        i := i + 1;
      }
      assert fetches[..|fetches|] == fetches;
    }
  }

  // ---- Properties of the alert ----

  /** The difference is positive exactly when the price rose by at least one gold. */
  lemma GoldDiffSign(last: WowToken, token: WowToken)
    ensures GoldDiff(last, token) > 0 <==> token.price - last.price >= CopperPerGold
    ensures GoldDiff(last, token) < 0 <==> token.price - last.price <= -CopperPerGold
    ensures GoldDiff(last, token) == 0 <==> -CopperPerGold < token.price - last.price < CopperPerGold
  {
  }

  /** A "+" is written exactly for a positive difference; a negative one carries its own "-". */
  lemma DiffTextSign(diff: int)
    ensures |DiffText(diff)| >= 1
    ensures DiffText(diff)[0] == '+' <==> diff > 0
    ensures DiffText(diff)[0] == '-' <==> diff < 0
    ensures DiffText(diff) == "0" <==> diff == 0
  {
    ItoaSign(diff);
    if diff > 0 {
      assert DiffText(diff) == "+" + Itoa(diff);
    } else {
      assert DiffText(diff) == Itoa(diff);
    }
  }

  predicate EndsWith(s: string, suffix: string)
  {
    |suffix| <= |s| && s[|s| - |suffix|..] == suffix
  }

  /** The "bot startup" form is used exactly when the remembered token has no timestamp. */
  lemma StartupFormIffNoTimestamp(last: WowToken, token: WowToken)
    ensures EndsWith(AlertText(last, token), "(bot startup)") <==> last.lastUpdatedTimestamp == 0
  {
    var text := AlertText(last, token);
    if last.lastUpdatedTimestamp != 0 {
      var d := DiffText(GoldDiff(last, token));
      var n := Itoa(GoldDiff(last, token));
      assert d[|d| - 1] == n[|n| - 1];
      var g := GoldDiff(last, token);
      assert n == if g < 0 then "-" + NatToString(-g) else NatToString(g);
      assert IsDigit(n[|n| - 1]);
      assert text[|text| - 2] == d[|d| - 1];
      assert "(bot startup)"[11] == 'p';
    }
  }

  /** A failed fetch is remembered as the zero token: the next successful one is announced as a startup. */
  lemma AfterFailedFetch(e: string, token: WowToken)
    requires token.lastUpdatedTimestamp != 0 && token.price != 0
    ensures Alert(TokenOf(Failure(e)), token).Some?
    ensures EndsWith(AlertText(TokenOf(Failure(e)), token), "(bot startup)")
  {
    StartupFormIffNoTimestamp(ZeroToken, token);
  }

  /** A failed fetch after a known token is itself announced, as a price of 0g. */
  lemma FailedFetchAnnounced(last: WowToken, e: string)
    requires last.lastUpdatedTimestamp != 0 && last.price != 0
    ensures Alert(last, TokenOf(Failure(e))).Some?
    ensures AlertText(last, TokenOf(Failure(e))) ==
      "Wow token price updated: 0g (" + DiffText(ToGold(-last.price)) + ")"
  {
  }

  /** Truncation toward zero: a fall of 2.5 gold reads (-2), where flooring would give (-3). */
  lemma ExampleFall()
    ensures Alert(WowToken(1000, 2500000), WowToken(2000, 2475000))
         == Some(Post(AlertGuild, AlertChannel, "Wow token price updated: 247g (-2)"))
  {
    assert ToGold(2475000) == 247 && ToGold(-25000) == -2;
    assert Itoa(247) == "247" && DiffText(-2) == "-2";
    assert AlertText(WowToken(1000, 2500000), WowToken(2000, 2475000))
        == "Wow token price updated: " + "247" + "g (" + "-2" + ")";
    assert "Wow token price updated: " + "247" + "g (" + "-2" + ")" == "Wow token price updated: 247g (-2)";
  }

  /** A rise of 1.2345 gold reads (+1). */
  lemma ExampleRise()
    ensures Alert(WowToken(1000, 2500000), WowToken(2000, 2512345))
         == Some(Post(AlertGuild, AlertChannel, "Wow token price updated: 251g (+1)"))
  {
    assert ToGold(2512345) == 251 && ToGold(12345) == 1;
    assert Itoa(251) == "251" && DiffText(1) == "+1";
    assert AlertText(WowToken(1000, 2500000), WowToken(2000, 2512345))
        == "Wow token price updated: " + "251" + "g (" + "+1" + ")";
    assert "Wow token price updated: " + "251" + "g (" + "+1" + ")" == "Wow token price updated: 251g (+1)";
  }

  /** The first token after start-up. */
  lemma ExampleStartup()
    ensures Alert(ZeroToken, WowToken(1000, 2500000))
         == Some(Post(AlertGuild, AlertChannel, "Wow token price: 250g (bot startup)"))
  {
    assert ToGold(2500000) == 250;
    assert Itoa(250) == "250";
    assert AlertText(ZeroToken, WowToken(1000, 2500000)) == "Wow token price: " + "250" + "g (bot startup)";
    assert "Wow token price: " + "250" + "g (bot startup)" == "Wow token price: 250g (bot startup)";
  }

  /** A new price under the same timestamp is not announced. */
  lemma ExampleSameTimestamp()
    ensures Alert(WowToken(1000, 2500000), WowToken(1000, 2600000)) == None
  {
  }
}
