/**
 * The grouping loop of `plot_loss` (utils.py): each history key is drawn on a
 * panel of a 2x2 grid. A key whose metric name already names a cached panel is
 * drawn there; otherwise it opens the next panel, which is cached under the
 * full key. The drawing itself is not modelled.
 */
module LossPanels {
  import opened Results

  /**
   * How a key's metric name is derived. `SecondField` is what utils.py does
   * (`key.split('_')[1]`); `AfterPrefix` drops only the text up to the first
   * `'_'` (`key.split('_', 1)[1]`).
   */
  datatype NameRule = SecondField | AfterPrefix

  /** The position of the first `'_'` in `s`, or `|s|` when there is none. */
  function Underscore(s: string): (i: nat)
    ensures i <= |s|
    ensures forall j :: 0 <= j < i ==> s[j] != '_'
    ensures i < |s| ==> s[i] == '_'
  {
    if s == [] || s[0] == '_' then 0 else 1 + Underscore(s[1..])
  }

  /**
   * `m_name`: the key itself when it has no `'_'`. Otherwise the key is split at
   * its first `'_'`; `AfterPrefix` takes everything after it, `SecondField` only
   * the field that follows, up to the next `'_'` or the end.
   */
  function MetricName(key: string, rule: NameRule): (r: string)
    ensures '_' !in key ==> r == key
    ensures '_' in key && rule == AfterPrefix ==> key == key[..Underscore(key)] + "_" + r
    ensures '_' in key && rule == SecondField ==>
      var rest := key[Underscore(key) + 1..];
      && '_' !in r && r <= rest && (|r| == |rest| || rest[|r|] == '_')
  {
    if '_' !in key then key
    else
      var rest := key[Underscore(key) + 1..];
      match rule
      case SecondField => rest[..Underscore(rest)]
      case AfterPrefix => rest
  }

  /** The loop's state: `axis_cache` (panels by key), the counter `i`, and the panel chosen for each key so far. */
  datatype Panels = Panels(cache: map<string, nat>, next: nat, chosen: seq<nat>)

  /**
   * One iteration of the loop: the key is drawn on the panel cached under its
   * metric name if there is one, and otherwise opens panel `next`, cached under
   * the key itself.
   */
  function Step(p: Panels, key: string, rule: NameRule): (q: Panels)
    ensures |q.chosen| == |p.chosen| + 1 && q.chosen[..|p.chosen|] == p.chosen
    ensures q.cache == if MetricName(key, rule) in p.cache then p.cache else p.cache[key := p.next]
    ensures MetricName(key, rule) in p.cache ==> q.next == p.next && q.chosen[|p.chosen|] == p.cache[MetricName(key, rule)]
    ensures MetricName(key, rule) !in p.cache ==> q.next == p.next + 1 && q.chosen[|p.chosen|] == p.next
  {
    var name := MetricName(key, rule);
    if name in p.cache then p.(chosen := p.chosen + [p.cache[name]])
    else Panels(p.cache[key := p.next], p.next + 1, p.chosen + [p.next])
  }

  /** The loop run over `keys` in order, starting from an empty cache and `i = 1`. */
  function Group(keys: seq<string>, rule: NameRule): (p: Panels)
    ensures |p.chosen| == |keys|
  {
    if keys == [] then Panels(map[], 1, [])
    else Step(Group(keys[..|keys| - 1], rule), keys[|keys| - 1], rule)
  }

  /** Panels are numbered 1, 2, ... with no gaps: each key gets a used panel, and every panel is used. */
  ghost predicate WellNumbered(p: Panels, n: nat) {
    && |p.chosen| == n
    && p.next >= 1
    && (forall k :: k in p.cache ==> 1 <= p.cache[k] < p.next)
    && (forall j :: 0 <= j < n ==> 1 <= p.chosen[j] < p.next)
    && (forall q :: 1 <= q < p.next ==> q in p.chosen)
  }

  /** After any history, the panels in use are exactly 1 to `next - 1`, and every key has one of them. */
  lemma {:induction false} GroupWellNumbered(keys: seq<string>, rule: NameRule)
    ensures WellNumbered(Group(keys, rule), |keys|)
  {
    if keys != [] {
      var prev := Group(keys[..|keys| - 1], rule);
      GroupWellNumbered(keys[..|keys| - 1], rule);
      var p := Group(keys, rule);
      assert p.chosen[..|keys| - 1] == prev.chosen;
      forall q | 1 <= q < p.next
        ensures q in p.chosen
      {
        if q < prev.next {
          assert q in prev.chosen;
        } else {
          assert p.chosen[|keys| - 1] == q;
        }
      }
    }
  }

  /** Earlier keys keep their panels as the loop goes on. */
  lemma {:induction false} GroupExtends(keys: seq<string>, rule: NameRule, m: nat)
    requires m <= |keys|
    ensures |Group(keys, rule).chosen| == |keys|
    ensures Group(keys, rule).chosen[..m] == Group(keys[..m], rule).chosen
  {
    if m < |keys| {
      GroupExtends(keys[..|keys| - 1], rule, m);
      assert keys[..|keys| - 1][..m] == keys[..m];
    } else {
      assert keys[..m] == keys;
      if keys != [] {
        GroupExtends(keys[..|keys| - 1], rule, |keys| - 1);
      }
    }
  }

  /**
   * The grouping loop of `plot_loss` over the history's keys: returns the panel
   * of each key and the number of panels opened. It raises `KeyError` when the
   * history has no `"loss"` key, as the epoch range is read from it first.
   */
  method GroupPanels(keys: seq<string>, rule: NameRule) returns (r: Result<(seq<nat>, nat)>)
    ensures r.Failure? <==> "loss" !in keys
    ensures r.Failure? ==> r.error == KeyError
    ensures r.Success? ==> r.value.0 == Group(keys, rule).chosen && r.value.1 == Group(keys, rule).next - 1
    ensures r.Success? ==> |r.value.0| == |keys|
    ensures r.Success? ==> forall j :: 0 <= j < |keys| ==> 1 <= r.value.0[j] <= r.value.1
    ensures r.Success? ==> forall q :: 1 <= q <= r.value.1 ==> q in r.value.0
  {
    // `epochs = range(1, len(history['loss']) + 1)`
    if "loss" !in keys {
      return Failure(KeyError);
    }
    var axisCache: map<string, nat> := map[];
    var i := 1;
    var chosen := [];
    var k := 0;
    while k < |keys|
      invariant 0 <= k <= |keys|
      invariant Group(keys[..k], rule) == Panels(axisCache, i, chosen)
    {
      assert keys[..k + 1][..k] == keys[..k];
      var key := keys[k];
      var name := MetricName(key, rule);
      if name in axisCache {
        chosen := chosen + [axisCache[name]];
      } else {
        chosen := chosen + [i];
        axisCache := axisCache[key := i];
        i := i + 1;
      }
      k := k + 1;
    }
    assert keys[..k] == keys;
    GroupWellNumbered(keys, rule);
    r := Success((chosen, i - 1));
  }

  /** Keys of a dictionary are distinct. */
  predicate Distinct(keys: seq<string>) {
    forall a, b :: 0 <= a < b < |keys| ==> keys[a] != keys[b]
  }

  /** The loop state after `n` keys is one step past the state after `n - 1`. */
  lemma GroupPrefix(keys: seq<string>, rule: NameRule, n: nat)
    requires 0 < n <= |keys|
    ensures Group(keys[..n], rule) == Step(Group(keys[..n - 1], rule), keys[n - 1], rule)
  {
    assert keys[..n][..n - 1] == keys[..n - 1];
  }

  /** A key cached before a step under a different key stays cached with the same panel. */
  lemma StepKeepsCached(p: Panels, key: string, rule: NameRule, k: string)
    requires k in p.cache && k != key
    ensures k in Step(p, key, rule).cache && Step(p, key, rule).cache[k] == p.cache[k]
  {
  }

  /** The panel cached under a key that opened it stays cached, under distinct keys. */
  lemma {:induction false} CacheKeeps(keys: seq<string>, rule: NameRule, i: nat, n: nat)
    requires Distinct(keys) && i < n <= |keys|
    requires MetricName(keys[i], rule) !in Group(keys[..i], rule).cache
    ensures keys[i] in Group(keys[..n], rule).cache
    ensures Group(keys[..n], rule).cache[keys[i]] == Group(keys[..i], rule).next
  {
    GroupPrefix(keys, rule, n);
    if n > i + 1 {
      CacheKeeps(keys, rule, i, n - 1);
      assert keys[n - 1] != keys[i];
      StepKeepsCached(Group(keys[..n - 1], rule), keys[n - 1], rule, keys[i]);
    }
  }

  /** The panel of key `j`: the one cached under its metric name before it, or the next free one. */
  lemma PanelOf(keys: seq<string>, rule: NameRule, j: nat)
    requires j < |keys|
    ensures var prev := Group(keys[..j], rule);
      Group(keys, rule).chosen[j] == if MetricName(keys[j], rule) in prev.cache
                                     then prev.cache[MetricName(keys[j], rule)] else prev.next
  {
    GroupExtends(keys, rule, j + 1);
    GroupPrefix(keys, rule, j + 1);
    assert Group(keys, rule).chosen[..j + 1][j] == Group(keys, rule).chosen[j];
    assert |Group(keys[..j], rule).chosen| == j;
  }

  /** The first `'_'` is at `i` when `s[i]` is one and none comes before it. */
  lemma UnderscoreAt(s: string, i: nat)
    requires i < |s| && s[i] == '_'
    requires forall j :: 0 <= j < i ==> s[j] != '_'
    ensures Underscore(s) == i
  {
  }

  /** The metric names of a key `a_b` whose first part `a` has no `'_'`. */
  lemma JoinedNames(a: string, b: string)
    requires '_' !in a
    ensures MetricName(a + "_" + b, AfterPrefix) == b
    ensures MetricName(a + "_" + b, SecondField) == b[..Underscore(b)]
  {
    var key := a + "_" + b;
    UnderscoreAt(key, |a|);
    assert key[|a| + 1..] == b;
  }

  /** `"val_" + m` is named `m` when the prefix is dropped. */
  lemma ValidationName(m: string)
    ensures MetricName("val_" + m, AfterPrefix) == m
  {
    JoinedNames("val", m);
    assert "val_" + m == "val" + "_" + m;
  }

  /**
   * With the prefix rule, the validation curve of a metric is drawn on its
   * training panel: if key `keys[i]` opened a panel and a later key is
   * `"val_" + keys[i]`, both get the same panel.
   */
  lemma ValidationSharesTrainingPanel(keys: seq<string>, i: nat, j: nat)
    requires Distinct(keys) && i < j < |keys|
    requires keys[j] == "val_" + keys[i]
    requires MetricName(keys[i], AfterPrefix) !in Group(keys[..i], AfterPrefix).cache
    ensures Group(keys, AfterPrefix).chosen[j] == Group(keys, AfterPrefix).chosen[i]
  {
    CacheKeeps(keys, AfterPrefix, i, j);
    ValidationName(keys[i]);
    PanelOf(keys, AfterPrefix, i);
    PanelOf(keys, AfterPrefix, j);
  }

  /** Two keys share panel 1 exactly when the second one's metric name is the first key. */
  lemma TwoKeys(first: string, second: string, rule: NameRule)
    ensures Group([first, second], rule).chosen
            == if MetricName(second, rule) == first then [1, 1] else [1, 2]
  {
    var keys := [first, second];
    GroupPrefix(keys, rule, 2);
    GroupPrefix(keys, rule, 1);
    assert keys[..2] == keys && keys[..1] == [first] && keys[..0] == [];
    assert Group([first], rule) == Panels(map[first := 1], 2, [1]);
  }

  /** As written, the key `val_a_b` is looked up under `a`. */
  lemma SecondFieldOfValidation(a: string, b: string)
    requires '_' !in a
    ensures MetricName("val_" + (a + "_" + b), SecondField) == a
  {
    var m := a + "_" + b;
    JoinedNames("val", m);
    assert "val_" + m == "val" + "_" + m;
    UnderscoreAt(m, |a|);
    assert m[..|a|] == a;
  }

  /**
   * As written (`split('_')[1]`), a metric whose name contains `'_'` gets a
   * second panel for its validation curve: for `m = a_b` (say
   * `mean_squared_error`), the keys `m` and `val_m` land on panels 1 and 2,
   * since `val_m` is looked up as `a`. Dropping only the prefix puts both on panel 1.
   */
  lemma SecondFieldSplitsValidationPanel(a: string, b: string)
    requires '_' !in a
    ensures var m := a + "_" + b;
      && Group([m, "val_" + m], SecondField).chosen == [1, 2]
      && Group([m, "val_" + m], AfterPrefix).chosen == [1, 1]
  {
    var m := a + "_" + b;
    SecondFieldOfValidation(a, b);
    ValidationName(m);
    assert a != m by {
      assert |a| < |m|;
    }
    TwoKeys(m, "val_" + m, SecondField);
    TwoKeys(m, "val_" + m, AfterPrefix);
  }

  /** A key with no `'_'` is its own metric name under either rule. */
  lemma PlainName(key: string, rule: NameRule)
    requires '_' !in key
    ensures MetricName(key, rule) == key
  {
  }

  /** The loop over `keys + [key]` is one step past the loop over `keys`. */
  lemma GroupSnoc(keys: seq<string>, key: string, rule: NameRule)
    ensures Group(keys + [key], rule) == Step(Group(keys, rule), key, rule)
  {
    assert (keys + [key])[..|keys|] == keys;
  }

  /**
   * The first three keys of a history `l`, `m`, `val_l`, where `m` does not
   * name `l`'s panel: `l` and `m` open panels 1 and 2, and `val_l` joins panel 1.
   */
  lemma {:induction false} TrainingThenValidationLoss(l: string, m: string, rule: NameRule)
    requires '_' !in l && MetricName(m, rule) != l
    requires MetricName("val_" + l, rule) == l
    ensures Group([l, m, "val_" + l], rule) == Panels(map[l := 1, m := 2], 3, [1, 2, 1])
  {
    PlainName(l, rule);
    GroupSnoc([], l, rule);
    assert [] + [l] == [l];
    assert Group([l], rule) == Panels(map[l := 1], 2, [1]);
    GroupSnoc([l], m, rule);
    assert [l] + [m] == [l, m];
    assert Group([l, m], rule) == Panels(map[l := 1, m := 2], 3, [1, 2]);
    GroupSnoc([l, m], "val_" + l, rule);
    assert [l, m] + ["val_" + l] == [l, m, "val_" + l];
  }

  /** `val_l` is named `l` under either rule when `l` has no `'_'`. */
  lemma ValidationOfPlainName(l: string, rule: NameRule)
    requires '_' !in l
    ensures MetricName("val_" + l, rule) == l
  {
    JoinedNames("val", l);
    assert "val_" + l == "val" + "_" + l;
    PlainName(l, rule);
  }

  /** The fourth key `v` after `l`, `m`, `val_l` joins the panel of the key its metric name is, or opens panel 3. */
  lemma FourthKey(l: string, m: string, v: string, rule: NameRule)
    requires Group([l, m, "val_" + l], rule) == Panels(map[l := 1, m := 2], 3, [1, 2, 1])
    ensures Group([l, m, "val_" + l, v], rule).chosen
            == [1, 2, 1, if MetricName(v, rule) == l then 1 else if MetricName(v, rule) == m then 2 else 3]
  {
    GroupSnoc([l, m, "val_" + l], v, rule);
    assert [l, m, "val_" + l] + [v] == [l, m, "val_" + l, v];
  }

  /**
   * A history `l`, `m`, `val_l`, `val_m` for a loss `l` with no `'_'` and a
   * metric `m = a_b`: as written, `val_m` opens panel 3; dropping only the
   * prefix puts it on `m`'s panel 2.
   */
  lemma {:induction false} HistoryPanels(l: string, a: string, b: string)
    requires '_' !in l && '_' !in a && a != l
    requires MetricName(a + "_" + b, SecondField) != l && MetricName(a + "_" + b, AfterPrefix) != l
    ensures var m := a + "_" + b;
      && Group([l, m, "val_" + l, "val_" + m], SecondField).chosen == [1, 2, 1, 3]
      && Group([l, m, "val_" + l, "val_" + m], AfterPrefix).chosen == [1, 2, 1, 2]
  {
    var m := a + "_" + b;
    ValidationOfPlainName(l, SecondField);
    ValidationOfPlainName(l, AfterPrefix);
    TrainingThenValidationLoss(l, m, SecondField);
    TrainingThenValidationLoss(l, m, AfterPrefix);
    SecondFieldOfValidation(a, b);
    assert a != m by {
      assert |a| < |m|;
    }
    ValidationName(m);
    FourthKey(l, m, "val_" + m, SecondField);
    FourthKey(l, m, "val_" + m, AfterPrefix);
  }

  /**
   * A Keras history `loss`, `m`, `val_loss`, `val_m` for a metric `m = a_b`
   * (say `mean_squared_error`). As written, `val_m` is looked up as `a`, so it
   * opens a third panel (labelled "Training val_m") instead of joining `m`'s
   * panel 2; dropping only the prefix gives the two panels the plot is laid out for.
   */
  lemma KerasHistoryPanels(a: string, b: string)
    requires '_' !in a && a != "loss"
    requires MetricName(a + "_" + b, SecondField) != "loss" && MetricName(a + "_" + b, AfterPrefix) != "loss"
    ensures var m := a + "_" + b;
      && Group(["loss", m, "val_loss", "val_" + m], SecondField).chosen == [1, 2, 1, 3]
      && Group(["loss", m, "val_loss", "val_" + m], AfterPrefix).chosen == [1, 2, 1, 2]
  {
    assert '_' !in "loss" by {
      assert "loss" == ['l', 'o', 's', 's'];
    }
    assert "val_" + "loss" == "val_loss";
    HistoryPanels("loss", a, b);
  }
}
