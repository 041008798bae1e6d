// XP tiers: 100 XP a sub tier, 5 sub tiers a main tier, 20 main tiers a prestige.
module XpTiers {
  import opened Wrappers

  // lootbox.main_tiers (thresholds 0..19) and lootbox.sub_tiers (0..4), names distinct.
  datatype Names = Names(main: seq<string>, sub: seq<string>) {
    ghost predicate Valid() {
      |main| == 20 && |sub| == 5
      && (forall i, j :: 0 <= i < j < 20 ==> main[i] != main[j])
      && (forall i, j :: 0 <= i < j < 5 ==> sub[i] != sub[j])
    }
  }

  function RawTier(xp: nat): nat { xp / 100 }
  function NormalizedTier(xp: nat): nat { RawTier(xp) % 100 }
  function Prestige(xp: nat): nat { RawTier(xp) / 100 }
  function MainTier(xp: nat): nat { NormalizedTier(xp) / 5 }
  function SubTier(xp: nat): nat { RawTier(xp) % 5 }

  datatype Summary = Summary(currentFullTierName: string, nextFullTierName: string,
                             nextSubTierXpRequired: int, nextSubTierXpTotal: int,
                             nextMainTierXpRequired: int, nextMainTierXpTotal: int)

  // fetch_user_xp_summary; the four tier joins always find their row.
  function FetchUserXpSummary(names: Names, xp: nat): Summary
    requires names.Valid()
  {
    var raw, normalized, prestige := RawTier(xp), NormalizedTier(xp), Prestige(xp);
    var cm, cs := names.main[normalized / 5], names.sub[raw % 5];
    var nm, ns := names.main[(normalized / 5 + 1) % 20], names.sub[(raw + 1) % 5];
    Summary(cm + " " + cs,
            if raw % 5 == 4 then nm + " " + ns else cm + " " + ns,
            (raw + 1) * 100 - xp,
            (raw + 1) * 100,
            ((normalized / 5 + 1) * 5 + prestige * 100) * 100 - xp,
            ((normalized / 5 + 1) * 5 + prestige * 100) * 100)
  }

  datatype RankChange = MainTierRankUp | SubTierRankUp

  // fetch_xp_tier_change: the CASE, then the prestige flag.
  function FetchXpTierChange(names: Names, oldXp: nat, newXp: nat): (Option<RankChange>, bool)
    requires names.Valid()
  {
    (if names.main[MainTier(oldXp)] != names.main[MainTier(newXp)] then Some(MainTierRankUp)
     else if names.sub[SubTier(oldXp)] != names.sub[SubTier(newXp)] then Some(SubTierRankUp)
     else None,
     Prestige(oldXp) != Prestige(newXp))
  }

  // ---- Mixed radix ----

  ghost predicate Digits(prestige: nat, main: nat, sub: nat, rest: nat) {
    main < 20 && sub < 5 && rest < 100
  }

  function Value(prestige: nat, main: nat, sub: nat, rest: nat): nat {
    prestige * 10000 + main * 500 + sub * 100 + rest
  }

  // Every XP amount has exactly one (prestige, main, sub, remainder), and the query finds it.
  lemma UniqueDigits(xp: nat, p: nat, m: nat, s: nat, r: nat)
    ensures Digits(Prestige(xp), MainTier(xp), SubTier(xp), xp % 100)
    ensures Value(Prestige(xp), MainTier(xp), SubTier(xp), xp % 100) == xp
    ensures Digits(p, m, s, r) && Value(p, m, s, r) == xp ==>
              p == Prestige(xp) && m == MainTier(xp) && s == SubTier(xp) && r == xp % 100
  {
    RawDigits(RawTier(xp), Prestige(xp), MainTier(xp), SubTier(xp));
    if Digits(p, m, s, r) && Value(p, m, s, r) == xp {
      assert xp / 100 == p * 100 + m * 5 + s;
      RawDigits(RawTier(xp), p, m, s);
    }
  }

  lemma RawDigits(raw: nat, p: nat, m: nat, s: nat)
    ensures raw == (raw / 100) * 100 + (raw % 100 / 5) * 5 + raw % 5
    ensures m < 20 && s < 5 && raw == p * 100 + m * 5 + s ==> p == raw / 100 && m == raw % 100 / 5 && s == raw % 5
  {
  }

  // The names and totals the summary shows for an XP amount with given digits.
  lemma SummaryShowsDigits(names: Names, p: nat, m: nat, s: nat, r: nat)
    requires names.Valid() && Digits(p, m, s, r)
    ensures var now := FetchUserXpSummary(names, Value(p, m, s, r));
            && now.currentFullTierName == names.main[m] + " " + names.sub[s]
            && now.nextFullTierName == (if s < 4 then names.main[m] + " " + names.sub[s + 1]
                                        else names.main[if m < 19 then m + 1 else 0] + " " + names.sub[0])
            && now.nextSubTierXpTotal == Value(p, m, s, r) + now.nextSubTierXpRequired == Value(p, m, s, 100)
            && now.nextMainTierXpTotal == Value(p, m, s, r) + now.nextMainTierXpRequired == Value(p, m, 5, 0)
  {
    DigitsOfValue(p, m, s, r);
    NamesShown(names, Value(p, m, s, r), m, s);
    TotalsShown(names, p, m, s, r);
  }

  lemma NamesShown(names: Names, xp: nat, m: nat, s: nat)
    requires names.Valid() && m < 20 && s < 5 && NormalizedTier(xp) / 5 == m && RawTier(xp) % 5 == s
    ensures var now := FetchUserXpSummary(names, xp);
            && now.currentFullTierName == names.main[m] + " " + names.sub[s]
            && now.nextFullTierName == (if s < 4 then names.main[m] + " " + names.sub[s + 1]
                                        else names.main[if m < 19 then m + 1 else 0] + " " + names.sub[0])
  {
    NextDigit(RawTier(xp), s);
    assert (m + 1) % 20 == if m < 19 then m + 1 else 0;
  }

  lemma NextDigit(raw: nat, s: nat)
    requires s < 5 && raw % 5 == s
    ensures (raw + 1) % 5 == if s < 4 then s + 1 else 0
  {
  }

  lemma TotalsShown(names: Names, p: nat, m: nat, s: nat, r: nat)
    requires names.Valid() && Digits(p, m, s, r)
    ensures var now := FetchUserXpSummary(names, Value(p, m, s, r));
            && now.nextSubTierXpTotal == Value(p, m, s, r) + now.nextSubTierXpRequired == Value(p, m, s, 100)
            && now.nextMainTierXpTotal == Value(p, m, s, r) + now.nextMainTierXpRequired == Value(p, m, 5, 0)
  {
    DigitsOfValue(p, m, s, r);
  }

  lemma DigitsOfValue(p: nat, m: nat, s: nat, r: nat)
    requires Digits(p, m, s, r)
    ensures var xp := Value(p, m, s, r);
            && RawTier(xp) == p * 100 + m * 5 + s
            && Prestige(xp) == p && NormalizedTier(xp) / 5 == m && RawTier(xp) % 5 == s
  {
    var xp := Value(p, m, s, r);
    assert xp / 100 == p * 100 + m * 5 + s;
    RawDigits(RawTier(xp), p, m, s);
  }

  // ---- The next tier ----

  // next_sub_tier_xp_required is the least gain that changes the tier, and it lands exactly on
  // the tier named next_full_tier_name.
  lemma NextSubTierLands(names: Names, xp: nat, gain: nat)
    requires names.Valid()
    ensures var now := FetchUserXpSummary(names, xp);
            && 1 <= now.nextSubTierXpRequired <= 100
            && FetchUserXpSummary(names, xp + now.nextSubTierXpRequired).currentFullTierName == now.nextFullTierName
            && (gain < now.nextSubTierXpRequired ==>
                  FetchUserXpSummary(names, xp + gain).currentFullTierName == now.currentFullTierName)
  {
    var raw := RawTier(xp);
    var required := (raw + 1) * 100 - xp;
    assert RawTier(xp + required) == raw + 1;
    NextRaw(raw);
    if gain < required {
      assert RawTier(xp + gain) == raw;
    }
  }

  lemma NextRaw(raw: nat)
    ensures (raw + 1) % 100 / 5 == if raw % 5 == 4 then (raw % 100 / 5 + 1) % 20 else raw % 100 / 5
    ensures (raw + 1) % 5 == if raw % 5 == 4 then 0 else raw % 5 + 1
  {
    var p, m, s := raw / 100, raw % 100 / 5, raw % 5;
    RawDigits(raw, p, m, s);
    if s < 4 {
      RawDigits(raw + 1, p, m, s + 1);
    } else if m < 19 {
      RawDigits(raw + 1, p, m + 1, 0);
    } else {
      RawDigits(raw + 1, p + 1, 0, 0);
    }
  }

  // next_main_tier_xp_required lands on sub tier 0 of the next main tier, one prestige up
  // exactly when the main tiers wrap.
  lemma NextMainTierLands(names: Names, xp: nat)
    requires names.Valid()
    ensures var required := FetchUserXpSummary(names, xp).nextMainTierXpRequired;
            && 1 <= required <= 500
            && MainTier(xp + required) == (MainTier(xp) + 1) % 20 && SubTier(xp + required) == 0
            && (xp + required) % 100 == 0
            && Prestige(xp + required) == Prestige(xp) + if MainTier(xp) == 19 then 1 else 0
  {
    var raw := RawTier(xp);
    var required := FetchUserXpSummary(names, xp).nextMainTierXpRequired;
    var next := (raw / 5 + 1) * 5;
    MainByFives(raw);
    assert required == next * 100 - xp;
    assert RawTier(xp + required) == next;
    MainByFives(next);
  }

  lemma MainByFives(raw: nat)
    ensures raw % 100 / 5 == raw / 5 % 20 && raw / 100 == raw / 5 / 20
    ensures (raw % 100 / 5 + 1) * 5 + raw / 100 * 100 == (raw / 5 + 1) * 5
    ensures (raw / 5 + 1) * 5 / 5 == raw / 5 + 1 && (raw / 5 + 1) * 5 % 5 == 0
  {
    var p, m, s := raw / 100, raw % 100 / 5, raw % 5;
    RawDigits(raw, p, m, s);
    assert raw / 5 == p * 20 + m;
    ByTwenties(p, m);
  }

  lemma ByTwenties(p: nat, m: nat)
    requires m < 20
    ensures (p * 20 + m) / 20 == p && (p * 20 + m) % 20 == m
  {
  }

  // ---- The tier-change query ----

  // A main rank-up is reported exactly when the number of 500-XP steps taken is not a multiple
  // of 20: the query compares names, so a whole prestige of them cancels out.
  lemma MainRankUpReported(names: Names, xp: nat, gain: nat)
    requires names.Valid()
    ensures FetchXpTierChange(names, xp, xp + gain).0 == Some(MainTierRankUp) <==>
            ((xp + gain) / 500 - xp / 500) % 20 != 0
  {
    MainTierIs(xp);
    MainTierIs(xp + gain);
    SameTwenty(xp / 500, (xp + gain) / 500);
  }

  // The whole answer, from the steps of 500, 100 and 10000 XP taken.
  lemma RankChangeIff(names: Names, oldXp: nat, newXp: nat)
    requires names.Valid()
    ensures var (change, prestiged) := FetchXpTierChange(names, oldXp, newXp);
            var main, sub := newXp / 500 - oldXp / 500, newXp / 100 - oldXp / 100;
            && (change == Some(MainTierRankUp) <==> main % 20 != 0)
            && (change == Some(SubTierRankUp) <==> main % 20 == 0 && sub % 5 != 0)
            && (change == None <==> main % 20 == 0 && sub % 5 == 0)
            && (prestiged <==> newXp / 10000 != oldXp / 10000)
  {
    MainTierIs(oldXp);
    MainTierIs(newXp);
    SameTwenty(oldXp / 500, newXp / 500);
    SameFive(oldXp / 100, newXp / 100);
    PrestigeIs(oldXp);
    PrestigeIs(newXp);
  }

  lemma MainTierIs(xp: nat)
    ensures MainTier(xp) == xp / 500 % 20
  {
    MainByFives(RawTier(xp));
    assert RawTier(xp) / 5 == xp / 500;
  }

  lemma SameTwenty(a: nat, b: nat)
    ensures a % 20 == b % 20 <==> (b - a) % 20 == 0
  {
  }

  lemma SameFive(a: nat, b: nat)
    ensures a % 5 == b % 5 <==> (b - a) % 5 == 0
  {
  }

  lemma PrestigeIs(xp: nat)
    ensures Prestige(xp) == xp / 10000
  {
  }

  // Below required + 9500 the report is exact; at required + 9500 the main tier has come all
  // the way round and is not reported.
  lemma MainRankUpExact(names: Names, xp: nat, gain: nat)
    requires names.Valid()
    ensures var required := FetchUserXpSummary(names, xp).nextMainTierXpRequired;
            var reported := FetchXpTierChange(names, xp, xp + gain).0 == Some(MainTierRankUp);
            && (gain < required + 9500 ==> (reported <==> gain >= required))
            && (gain == required + 9500 ==> !reported)
  {
    MainRankUpReported(names, xp, gain);
    RequiredByFiveHundreds(names, xp);
    StepsTaken(xp, gain);
  }

  lemma RequiredByFiveHundreds(names: Names, xp: nat)
    requires names.Valid()
    ensures FetchUserXpSummary(names, xp).nextMainTierXpRequired == 500 - xp % 500
  {
    MainByFives(RawTier(xp));
    assert RawTier(xp) / 5 == xp / 500;
  }

  lemma StepsTaken(xp: nat, gain: nat)
    ensures (xp + gain) / 500 - xp / 500 == (xp % 500 + gain) / 500
  {
  }
}
