/** `process_indicators` and `send_to_discord` of __main__.py: the alert decisions
    taken on one ticker's snapshot, the mention string built from its roles, and
    the posts that reach the sector's webhook. */
module Indicators {
  import opened Outcome
  import opened Series
  import opened Classify

  /** The two moving-average windows that are checked for crossovers. */
  datatype Window = MA200 | MA50
  {
    function Label(): string
    {
      match this
      case MA200 => "200"
      case MA50 => "50"
    }
  }

  /** One alert condition that fired. */
  datatype Alert =
    | CrossAbove(window: Window)
    | CrossBelow(window: Window)
    | Gained(move: real)
    | Lost(move: real)
    | VolumeAbove(excess: Option<real>)  // None: infinite, over an average of zero

  /** The numbers `process_indicators` reads before deciding. */
  datatype Snapshot = Snapshot(price: real, yestClose: real, percentMove: real, volume: int,
                               ma200: real, ma50: real, avgVolume: real)

  /** One webhook call: the URL and the message content. */
  datatype Post = Post(hook: string, content: string)

  /** The block of `process_indicators` an alert comes from, in program order. */
  function Block(a: Alert): nat
  {
    match a
    case CrossAbove(w) => if w == MA200 then 0 else 1
    case CrossBelow(w) => if w == MA200 then 0 else 1
    case Gained(_) => 2
    case Lost(_) => 2
    case VolumeAbove(_) => 3
  }

  /** The crossover test for one window. */
  function Cross(w: Window, price: real, yestClose: real, ma: real): (r: seq<Alert>)
    ensures |r| <= 1
    ensures r != [] <==> (yestClose < ma < price || price < ma < yestClose)
  {
    if price > ma && yestClose < ma then [CrossAbove(w)]
    else if price < ma && yestClose > ma then [CrossBelow(w)]
    else []
  }

  /** The price-move test. */
  function Move(percentMove: real): (r: seq<Alert>)
    ensures |r| <= 1
    ensures r == [] <==> -3.0 < percentMove < 3.0
  {
    if percentMove >= 3.0 then [Gained(percentMove)]
    else if percentMove <= -3.0 then [Lost(percentMove)]
    else []
  }

  /** `round(((volume / avg_volume) - 1) * 100, 2)`. */
  function Excess(volume: int, avgVolume: real): (r: Option<real>)
    ensures r.None? <==> avgVolume == 0.0
  {
    if avgVolume == 0.0 then None else Some(Round2((volume as real / avgVolume - 1.0) * 100.0))
  }

  /** Volume above one and a half times a positive average is reported as an excess
      of at least 50%: the exact excess is above 50, and rounding keeps it there. */
  lemma SpikeExcess(volume: int, avgVolume: real)
    requires avgVolume > 0.0 && volume as real > avgVolume * 1.5
    ensures Excess(volume, avgVolume).value >= 50.0
  {
    DivStrict(avgVolume * 1.5, volume as real, avgVolume);
    assert avgVolume * 1.5 / avgVolume == 1.5;
    var x := (volume as real / avgVolume - 1.0) * 100.0;
    Round2Monotone(5000 as real / 100.0, x);
    Round2Exact(5000);
  }

  /** The volume test. */
  function Spike(volume: int, avgVolume: real): (r: seq<Alert>)
    ensures |r| <= 1
    ensures r != [] <==> volume as real > avgVolume * 1.5
  {
    if volume as real > avgVolume * 1.5 then [VolumeAbove(Excess(volume, avgVolume))] else []
  }

  /** The alerts for a snapshot, in the order they are sent: at most one per block,
      blocks in program order, so at most four. */
  function Alerts(s: Snapshot): (r: seq<Alert>)
    ensures forall i, j :: 0 <= i < j < |r| ==> Block(r[i]) < Block(r[j])
    ensures |r| <= 4
  {
    var c200 := Cross(MA200, s.price, s.yestClose, s.ma200);
    var c50 := Cross(MA50, s.price, s.yestClose, s.ma50);
    var mv := Move(s.percentMove);
    var sp := Spike(s.volume, s.avgVolume);
    var r := c200 + c50 + mv + sp;
    var a, b, c := |c200|, |c200| + |c50|, |c200| + |c50| + |mv|;
    assert forall i :: 0 <= i < |r| ==>
      (i < a ==> r[i] == c200[i]) &&
      (a <= i < b ==> r[i] == c50[i - a]) &&
      (b <= i < c ==> r[i] == mv[i - b]) &&
      (c <= i ==> r[i] == sp[i - c]);
    assert forall i :: 0 <= i < |r| ==>
      Block(r[i]) == if i < a then 0 else if i < b then 1 else if i < c then 2 else 3;
    r
  }

  /** Each window's crossover fires on a strict cross only, and in one direction:
      "above" exactly when the price is above the average and the previous close
      below it, "below" exactly in the mirror case; equality never fires. */
  lemma CrossAlerts(s: Snapshot)
    ensures CrossAbove(MA200) in Alerts(s) <==> s.price > s.ma200 && s.yestClose < s.ma200
    ensures CrossBelow(MA200) in Alerts(s) <==> s.price < s.ma200 && s.yestClose > s.ma200
    ensures CrossAbove(MA50) in Alerts(s) <==> s.price > s.ma50 && s.yestClose < s.ma50
    ensures CrossBelow(MA50) in Alerts(s) <==> s.price < s.ma50 && s.yestClose > s.ma50
  {
    var c200 := Cross(MA200, s.price, s.yestClose, s.ma200);
    var c50 := Cross(MA50, s.price, s.yestClose, s.ma50);
    assert Alerts(s) == c200 + c50 + Move(s.percentMove) + Spike(s.volume, s.avgVolume);
  }

  /** The price move fires "gained" exactly at 3 or more and "lost" exactly at -3 or
      less, reporting the move itself. */
  lemma MoveAlerts(s: Snapshot)
    ensures (exists i :: 0 <= i < |Alerts(s)| && Alerts(s)[i].Gained?) <==> s.percentMove >= 3.0
    ensures (exists i :: 0 <= i < |Alerts(s)| && Alerts(s)[i].Lost?) <==> s.percentMove <= -3.0
    ensures forall i :: 0 <= i < |Alerts(s)| && (Alerts(s)[i].Gained? || Alerts(s)[i].Lost?) ==>
      Alerts(s)[i].move == s.percentMove
  {
    var c := Cross(MA200, s.price, s.yestClose, s.ma200) + Cross(MA50, s.price, s.yestClose, s.ma50);
    var mv, sp := Move(s.percentMove), Spike(s.volume, s.avgVolume);
    var r := Alerts(s);
    assert r == c + mv + sp;
    assert forall i :: 0 <= i < |r| ==>
      (i < |c| ==> r[i] == c[i] && !r[i].Gained? && !r[i].Lost?) &&
      (|c| <= i < |c| + |mv| ==> r[i] == mv[i - |c|]) &&
      (|c| + |mv| <= i ==> r[i] == sp[i - |c| - |mv|] && !r[i].Gained? && !r[i].Lost?);
    assert mv != [] ==> r[|c|] == mv[0];
  }

  /** The volume alert fires exactly when the volume is strictly above one and a
      half times the average, and reports the rounded excess. */
  lemma VolumeAlerts(s: Snapshot)
    ensures (exists i :: 0 <= i < |Alerts(s)| && Alerts(s)[i].VolumeAbove?) <==> s.volume as real > s.avgVolume * 1.5
    ensures forall i :: 0 <= i < |Alerts(s)| && Alerts(s)[i].VolumeAbove? ==>
      Alerts(s)[i].excess == Excess(s.volume, s.avgVolume)
  {
    var c := Cross(MA200, s.price, s.yestClose, s.ma200) + Cross(MA50, s.price, s.yestClose, s.ma50)
      + Move(s.percentMove);
    var sp := Spike(s.volume, s.avgVolume);
    var r := Alerts(s);
    assert r == c + sp;
    assert forall i :: 0 <= i < |r| ==>
      (i < |c| ==> r[i] == c[i] && !r[i].VolumeAbove?) &&
      (|c| <= i ==> r[i] == sp[i - |c|]);
    assert sp != [] ==> r[|c|] == sp[0];
  }

  /** previousClose 199, 200-day average 200, price 201: exactly the cross above
      the 200-day average among the 200-day alerts. */
  lemma CrossAboveExample(s: Snapshot)
    requires s.yestClose == 199.0 && s.ma200 == 200.0 && s.price == 201.0
    ensures CrossAbove(MA200) in Alerts(s) && CrossBelow(MA200) !in Alerts(s)
    ensures Alerts(s)[0] == CrossAbove(MA200)
  {
  }

  /** A volume of 180 over an average of 100 is reported as 80.0 percent above. */
  lemma VolumeExcessExample()
    ensures Excess(180, 100.0) == Some(80.0)
  {
    assert (180 as real / 100.0 - 1.0) * 100.0 == 8000 as real / 100.0;
    Round2Exact(8000);
  }

  /** `<@&id>`: a Discord role mention. */
  function Tag(id: string): (r: string)
    ensures |r| == |id| + 4
    ensures r[3..|r| - 1] == id
  {
    "<@&" + id + ">"
  }

  /** The mentions for the roles, in role order; the first role without an id
      raises KeyError. */
  function Mentions(roles: seq<string>, roleIds: map<string, string>): (r: Result<string>)
    ensures r.Ok? <==> forall i :: 0 <= i < |roles| ==> roles[i] in roleIds
    ensures r.Err? ==> r.error.KeyError? && r.error.key in roles && r.error.key !in roleIds
  {
    if roles == [] then Ok("")
    else
      var init := roles[..|roles| - 1];
      var role := roles[|roles| - 1];
      assert forall i :: 0 <= i < |init| ==> init[i] == roles[i];
      match Mentions(init, roleIds)
      case Err(e) => Err(e)
      case Ok(m) => if role in roleIds then Ok(m + Tag(roleIds[role])) else Err(KeyError(role))
  }

  /** Mentions of a concatenation are the concatenated mentions. */
  lemma {:induction false} MentionsAppend(a: seq<string>, b: seq<string>, roleIds: map<string, string>)
    requires Mentions(a + b, roleIds).Ok?
    ensures Mentions(a, roleIds).Ok? && Mentions(b, roleIds).Ok?
    ensures Mentions(a + b, roleIds).value == Mentions(a, roleIds).value + Mentions(b, roleIds).value
  {
    assert forall i :: 0 <= i < |a| ==> a[i] == (a + b)[i];
    assert forall i :: 0 <= i < |b| ==> b[i] == (a + b)[|a| + i];
    if b != [] {
      var n := |b| - 1;
      assert (a + b)[..|a + b| - 1] == a + b[..n];
      MentionsAppend(a, b[..n], roleIds);
    } else {
      assert a + b == a;
    }
  }

  /** A cap role and a sector category give two mentions, cap first. */
  lemma MentionsTwoRoles(cap: string, category: string, roleIds: map<string, string>)
    requires cap in roleIds && category in roleIds
    ensures Mentions([cap, category], roleIds) == Ok(Tag(roleIds[cap]) + Tag(roleIds[category]))
  {
    assert [cap, category][..1] == [cap];
    assert [cap][..0] == [];
    assert Mentions([cap], roleIds) == Ok("" + Tag(roleIds[cap]));
    assert "" + Tag(roleIds[cap]) == Tag(roleIds[cap]);
  }

  /** `send_to_discord`: the mentions are accumulated in a loop, then joined to the
      message with ": "; the HTTP call itself is not part of the model. */
  method SendToDiscord(message: string, hookUrl: string, roles: seq<string>,
                       roleIds: map<string, string>) returns (r: Result<Post>)
    ensures Mentions(roles, roleIds).Err? ==> r == Err(Mentions(roles, roleIds).error)
    ensures Mentions(roles, roleIds).Ok? ==>
      r == Ok(Post(hookUrl, Mentions(roles, roleIds).value + ": " + message))
  {
    var mentions := "";
    for i := 0 to |roles|
      invariant Mentions(roles[..i], roleIds) == Ok(mentions)
    {
      assert roles[..i + 1][..i] == roles[..i];
      if roles[i] !in roleIds {
        assert Mentions(roles[..i + 1], roleIds) == Err(KeyError(roles[i]));
        MentionsPrefixErr(roles, i + 1, roleIds);
        return Err(KeyError(roles[i]));
      }
      mentions := mentions + Tag(roleIds[roles[i]]);
    }
    assert roles[..|roles|] == roles;
    r := Ok(Post(hookUrl, mentions + ": " + message));
  }

  /** An error in a prefix of the roles is the error of all of them. */
  lemma {:induction false} MentionsPrefixErr(roles: seq<string>, k: nat, roleIds: map<string, string>)
    requires k <= |roles| && Mentions(roles[..k], roleIds).Err?
    ensures Mentions(roles, roleIds) == Mentions(roles[..k], roleIds)
    decreases |roles| - k
  {
    if k < |roles| {
      assert roles[..k + 1][..k] == roles[..k];
      MentionsPrefixErr(roles, k + 1, roleIds);
    } else {
      assert roles[..k] == roles;
    }
  }

  /** The numbers `process_indicators` reads, in its order: the live price, the
      last stored adjusted close, the move since it, the live volume, the two
      moving averages and the average volume. The first failing read (a missing
      provider field, an empty series) aborts the ticker. */
  function MakeSnapshot(t: Ticker, info: Info): (r: Result<Snapshot>)
    ensures r.Ok? <==>
      && info.currentPrice.Some? && info.volume.Some? && |t.series| > 0
      && t.series[|t.series| - 1].adjClose != 0.0
  {
    if info.currentPrice.None? then Err(KeyError("currentPrice"))
    else if |t.series| == 0 then Err(IndexError)
    else
      var price := info.currentPrice.value;
      match PercentMove(price, t.series, 1)
      case Err(e) => Err(e)
      case Ok(move) =>
        if info.volume.None? then Err(KeyError("volume"))
        else
          Ok(Snapshot(price, t.series[|t.series| - 1].adjClose, move, info.volume.value,
                      MovingAverage(t.series, 200).value, MovingAverage(t.series, 50).value,
                      AverageVolume(t.series).value))
  }

  /** Each number of a snapshot is the corresponding read: the live price and
      volume, the last stored adjusted close, the rounded move since it, and the
      two moving averages and the average volume of the stored series. */
  lemma MakeSnapshotFields(t: Ticker, info: Info)
    requires MakeSnapshot(t, info).Ok?
    ensures var r := MakeSnapshot(t, info).value;
      var last := t.series[|t.series| - 1].adjClose;
      && r.price == info.currentPrice.value
      && r.yestClose == last
      && r.percentMove == Round2(Change(info.currentPrice.value, last))
      && r.volume == info.volume.value
      && Some(r.ma200) == MovingAverage(t.series, 200)
      && Some(r.ma50) == MovingAverage(t.series, 50)
      && Some(r.avgVolume) == AverageVolume(t.series)
  {
  }

  /** Because the move is rounded to hundredths first, "gained" fires exactly when
      the exact move is at least 2.995 percent and "lost" exactly when it is at
      most -2.995 percent. */
  lemma MoveThresholds(t: Ticker, info: Info)
    requires MakeSnapshot(t, info).Ok?
    ensures var s := MakeSnapshot(t, info).value;
      var exact := Change(s.price, s.yestClose);
      && ((exists i :: 0 <= i < |Alerts(s)| && Alerts(s)[i].Gained?) <==> exact >= 2.995)
      && ((exists i :: 0 <= i < |Alerts(s)| && Alerts(s)[i].Lost?) <==> exact <= -2.995)
  {
    var s := MakeSnapshot(t, info).value;
    MakeSnapshotFields(t, info);
    MoveAlerts(s);
    Round2Thresholds(Change(s.price, s.yestClose));
  }

  /** The message text of an alert; `show` renders a float as Python does. */
  function Render(symbol: string, a: Alert, show: real -> string): (r: string)
    ensures |r| > |symbol|
    ensures !a.VolumeAbove? ==> symbol <= r
  {
    match a
    case CrossAbove(w) => symbol + " crossed above " + w.Label() + " day moving average"
    case CrossBelow(w) => symbol + " crossed below " + w.Label() + " day moving average"
    case Gained(m) => symbol + " gained " + show(m) + "% since yesterday"
    case Lost(m) => symbol + " lost " + show(m) + "% since yesterday"
    case VolumeAbove(e) =>
      "Today, " + symbol + "'s volume was " + (match e case Some(x) => show(x) case None => "inf")
      + "% above average"
  }

  /** The posts for a list of alerts, all to one hook with one mention prefix. */
  function Posts(hook: string, mentions: string, symbol: string, alerts: seq<Alert>,
                 show: real -> string): (ps: seq<Post>)
    ensures |ps| == |alerts|
    ensures forall i :: 0 <= i < |ps| ==>
      ps[i] == Post(hook, mentions + ": " + Render(symbol, alerts[i], show))
  {
    seq(|alerts|, i requires 0 <= i < |alerts| => Post(hook, mentions + ": " + Render(symbol, alerts[i], show)))
  }

  /** Posts of concatenated alert lists are the concatenated posts. */
  lemma PostsAppend(hook: string, mentions: string, symbol: string, a: seq<Alert>, b: seq<Alert>,
                    show: real -> string)
    ensures Posts(hook, mentions, symbol, a + b, show)
      == Posts(hook, mentions, symbol, a, show) + Posts(hook, mentions, symbol, b, show)
  {
  }

  /** One `send_to_discord(log_content, sector_hook, roles)` call of
      `process_indicators`, recording the post it makes; `ok` is false when it
      raised. */
  method Notify(alert: Alert, symbol: string, hook: string, roles: seq<string>,
                roleIds: map<string, string>, show: real -> string, posts: seq<Post>)
    returns (ok: bool, posts': seq<Post>)
    ensures ok <==> Mentions(roles, roleIds).Ok?
    ensures ok ==> posts' == posts + [Post(hook, Mentions(roles, roleIds).value + ": " + Render(symbol, alert, show))]
    ensures !ok ==> posts' == posts
  {
    var p := SendToDiscord(Render(symbol, alert, show), hook, roles, roleIds);
    ok := p.Ok?;
    posts' := if ok then posts + [p.value] else posts;
  }

  /** A moving-average block of `process_indicators`: the if/elif pair for one
      window. `ok` is false when its send raised; `sent` records the alerts posted
      so far. */
  method CrossBlock(w: Window, ma: real, s: Snapshot, symbol: string, hook: string,
                    roles: seq<string>, roleIds: map<string, string>, show: real -> string,
                    ghost sent: seq<Alert>, posts: seq<Post>)
    returns (ok: bool, ghost sent': seq<Alert>, posts': seq<Post>)
    requires Mentions(roles, roleIds).Ok? ==> posts == Posts(hook, Mentions(roles, roleIds).value, symbol, sent, show)
    ensures ok <==> Mentions(roles, roleIds).Ok? || Cross(w, s.price, s.yestClose, ma) == []
    ensures Mentions(roles, roleIds).Err? ==> posts' == posts
    ensures Mentions(roles, roleIds).Ok? ==> sent' == sent + Cross(w, s.price, s.yestClose, ma)
    ensures Mentions(roles, roleIds).Ok? ==>
      posts' == Posts(hook, Mentions(roles, roleIds).value, symbol, sent', show)
  {
    ok, sent', posts' := true, sent, posts;
    if s.price > ma && s.yestClose < ma {
      ok, posts' := Notify(CrossAbove(w), symbol, hook, roles, roleIds, show, posts);
      sent' := sent + [CrossAbove(w)];
    } else if s.price < ma && s.yestClose > ma {
      ok, posts' := Notify(CrossBelow(w), symbol, hook, roles, roleIds, show, posts);
      sent' := sent + [CrossBelow(w)];
    }
  }

  /** The price-move block of `process_indicators`. */
  method MoveBlock(s: Snapshot, symbol: string, hook: string, roles: seq<string>,
                   roleIds: map<string, string>, show: real -> string,
                   ghost sent: seq<Alert>, posts: seq<Post>)
    returns (ok: bool, ghost sent': seq<Alert>, posts': seq<Post>)
    requires Mentions(roles, roleIds).Ok? ==> posts == Posts(hook, Mentions(roles, roleIds).value, symbol, sent, show)
    ensures ok <==> Mentions(roles, roleIds).Ok? || Move(s.percentMove) == []
    ensures Mentions(roles, roleIds).Err? ==> posts' == posts
    ensures Mentions(roles, roleIds).Ok? ==> sent' == sent + Move(s.percentMove)
    ensures Mentions(roles, roleIds).Ok? ==>
      posts' == Posts(hook, Mentions(roles, roleIds).value, symbol, sent', show)
  {
    ok, sent', posts' := true, sent, posts;
    if s.percentMove >= 3.0 {
      ok, posts' := Notify(Gained(s.percentMove), symbol, hook, roles, roleIds, show, posts);
      sent' := sent + [Gained(s.percentMove)];
    } else if s.percentMove <= -3.0 {
      ok, posts' := Notify(Lost(s.percentMove), symbol, hook, roles, roleIds, show, posts);
      sent' := sent + [Lost(s.percentMove)];
    }
  }

  /** The volume block of `process_indicators`. */
  method VolumeBlock(s: Snapshot, symbol: string, hook: string, roles: seq<string>,
                     roleIds: map<string, string>, show: real -> string,
                     ghost sent: seq<Alert>, posts: seq<Post>)
    returns (ok: bool, ghost sent': seq<Alert>, posts': seq<Post>)
    requires Mentions(roles, roleIds).Ok? ==> posts == Posts(hook, Mentions(roles, roleIds).value, symbol, sent, show)
    ensures ok <==> Mentions(roles, roleIds).Ok? || Spike(s.volume, s.avgVolume) == []
    ensures Mentions(roles, roleIds).Err? ==> posts' == posts
    ensures Mentions(roles, roleIds).Ok? ==> sent' == sent + Spike(s.volume, s.avgVolume)
    ensures Mentions(roles, roleIds).Ok? ==>
      posts' == Posts(hook, Mentions(roles, roleIds).value, symbol, sent', show)
  {
    ok, sent', posts' := true, sent, posts;
    if s.volume as real > s.avgVolume * 1.5 {
      var excess := Excess(s.volume, s.avgVolume);
      ok, posts' := Notify(VolumeAbove(excess), symbol, hook, roles, roleIds, show, posts);
      sent' := sent + [VolumeAbove(excess)];
    }
  }

  /** The four alert blocks of `process_indicators`, in program order; the first
      send that raises ends the ticker. Every alert is posted when every role has an
      id, and nothing otherwise (the first send already fails). */
  method RunBlocks(s: Snapshot, symbol: string, hook: string, roles: seq<string>,
                   roleIds: map<string, string>, show: real -> string)
    returns (posts: seq<Post>)
    ensures Mentions(roles, roleIds).Err? ==> posts == []
    ensures Mentions(roles, roleIds).Ok? ==>
      posts == Posts(hook, Mentions(roles, roleIds).value, symbol, Alerts(s), show)
  {
    posts := [];
    ghost var sent: seq<Alert> := [];
    var ok;
    // Moving average indicators.
    ok, sent, posts := CrossBlock(MA200, s.ma200, s, symbol, hook, roles, roleIds, show, sent, posts);
    if !ok { return; }
    ok, sent, posts := CrossBlock(MA50, s.ma50, s, symbol, hook, roles, roleIds, show, sent, posts);
    if !ok { return; }
    // Price indicators.
    ok, sent, posts := MoveBlock(s, symbol, hook, roles, roleIds, show, sent, posts);
    if !ok { return; }
    // Volume indicator.
    ok, sent, posts := VolumeBlock(s, symbol, hook, roles, roleIds, show, sent, posts);
  }

  /** `process_indicators` for one ticker. The roles and the webhook (looked up by
      the raw sector) are resolved first, then the snapshot is read, then each
      block sends at most one message. Any exception ends the ticker: nothing is
      sent when the roles, the hook or a read fails, and nothing either when a role
      has no id, since that fails the first send. Otherwise every alert is posted,
      in order, to the sector's hook with the role mentions in front. */
  method ProcessIndicators(t: Ticker, info: Info, roleIds: map<string, string>,
                           hooks: map<string, string>, show: real -> string)
    returns (posts: seq<Post>)
    ensures Roles(t).Err? || t.sector !in hooks || MakeSnapshot(t, info).Err? ==> posts == []
    ensures Roles(t).Ok? && Mentions(Roles(t).value, roleIds).Err? ==> posts == []
    ensures
      && Roles(t).Ok? && t.sector in hooks && MakeSnapshot(t, info).Ok?
      && Mentions(Roles(t).value, roleIds).Ok?
      ==>
      posts == Posts(hooks[t.sector], Mentions(Roles(t).value, roleIds).value, t.symbol,
                     Alerts(MakeSnapshot(t, info).value), show)
  {
    posts := [];
    var roles := GetRoles(t);
    if roles.Err? || t.sector !in hooks {
      return;
    }
    var hook := hooks[t.sector];
    // update_data() runs here; its merged frame is never stored, so the reads
    // below see the stored series unchanged.
    var snapshot := MakeSnapshot(t, info);
    if snapshot.Err? {
      return;
    }
    posts := RunBlocks(snapshot.value, t.symbol, hook, roles.value, roleIds, show);
  }
}
