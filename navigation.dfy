/** The app's route table, the text encoding of a watering-schedule list that
    travels inside the plant-detail route, placeholder substitution into route
    templates, and the defaults used when a route argument is missing. */
module Navigation {
  import opened Strings
  import opened Entities

  // ---------------------------------------------------------------------------
  // Route table
  // ---------------------------------------------------------------------------

  datatype Screen =
    | Login | Dashboard | PlantList | OnField | PlantDetail
    | PlantCategory | PlantCategoryList | PlantPreferencePreset | AddCustomPlant
  {
    /** The route string, with `{name}` placeholders for its arguments;
        exactly the three destinations that take arguments have any. */
    function Route(): (r: string)
      ensures '{' in r <==> PlantDetail? || PlantCategoryList? || PlantPreferencePreset?
    {
      match this
      case Login => "login"
      case Dashboard => "dashboard"
      case PlantList => "plant_list"
      case OnField => "on_field"
      case PlantDetail =>
        var r := "plant_detail/" + "{plantName}" + "/" + "{plantId}" + "/" + "{days}" + "/" + "{waterPerDay}" + "/" + "{wateringSchedules}";
        assert r[13] == '{';
        r
      case PlantCategory => "plant_category"
      case PlantCategoryList =>
        var r := "plant_category_list/" + "{categoryName}";
        assert r[20] == '{';
        r
      case PlantPreferencePreset =>
        var r := "plant_preference_preset/" + "{plantName}" + "/" + "{plantSpecies}" + "/" + "{plantStatus}" + "/" + "{plantWaterAmount}";
        assert r[24] == '{';
        r
      case AddCustomPlant => "add_custom_plant"
    }
  }

  // ---------------------------------------------------------------------------
  // Watering-schedule codec
  // ---------------------------------------------------------------------------

  const EntrySeparator: char := '|'
  const FieldSeparator: char := ','

  /** `"${time},${amount}"`. */
  function EncodeEntry(w: WateringSchedule): string
  {
    w.time + [FieldSeparator] + w.amount
  }

  function EncodedEntries(ws: seq<WateringSchedule>): (es: seq<string>)
    ensures |es| == |ws|
    ensures forall i :: 0 <= i < |ws| ==> es[i] == EncodeEntry(ws[i])
  {
    seq(|ws|, i requires 0 <= i < |ws| => EncodeEntry(ws[i]))
  }

  /** The encoder on the field screen: entries joined by `|`, in list order.
      Only the empty list encodes to "", and the encoding starts with the first
      entry. */
  function EncodeSchedules(ws: seq<WateringSchedule>): (r: string)
    ensures |ws| == 0 <==> r == ""
    ensures |ws| > 0 ==> |r| >= |EncodeEntry(ws[0])| && r[..|EncodeEntry(ws[0])|] == EncodeEntry(ws[0])
    ensures |ws| == 1 ==> r == EncodeEntry(ws[0])
  {
    Join(EncodedEntries(ws), EntrySeparator)
  }

  /** One segment of the decoder: exactly two comma-separated parts make a
      schedule; anything else becomes a schedule with two empty fields. */
  function DecodeSegment(seg: string): (w: WateringSchedule)
    ensures FieldSeparator !in w.time && FieldSeparator !in w.amount
    ensures Occurrences(seg, FieldSeparator) == 1 ==> EncodeEntry(w) == seg
    ensures Occurrences(seg, FieldSeparator) != 1 ==> w == WateringSchedule("", "")
  {
    var parts := Split(seg, FieldSeparator);
    SplitCount(seg, FieldSeparator);
    if |parts| == 2 then WateringSchedule(parts[0], parts[1]) else WateringSchedule("", "")
  }

  /** Kotlin's `filter { it.isNotEmpty() }` on the segments. */
  function NonEmptyPieces(ps: seq<string>): (r: seq<string>)
    ensures |r| <= |ps|
    ensures forall k :: 0 <= k < |r| ==> r[k] != [] && r[k] in ps
    ensures forall k :: 0 <= k < |ps| && ps[k] != [] ==> ps[k] in r
    ensures |ps| == 1 ==> r == (if ps[0] == [] then [] else ps)
    decreases |ps|
  {
    if |ps| == 0 then []
    else if ps[0] == [] then NonEmptyPieces(ps[1..])
    else [ps[0]] + NonEmptyPieces(ps[1..])
  }

  /** The filter works piece by piece. */
  lemma {:induction false} NonEmptyPiecesConcat(a: seq<string>, b: seq<string>)
    ensures NonEmptyPieces(a + b) == NonEmptyPieces(a) + NonEmptyPieces(b)
    decreases |a|
  {
    if |a| == 0 {
      assert a + b == b;
    } else {
      assert (a + b)[0] == a[0];
      assert (a + b)[1..] == a[1..] + b;
      NonEmptyPiecesConcat(a[1..], b);
    }
  }

  /** The decoder on the detail route: split on `|`, drop empty segments,
      decode each remaining segment, in order. */
  function DecodeSchedules(s: string): (ws: seq<WateringSchedule>)
    ensures var segs := NonEmptyPieces(Split(s, EntrySeparator));
      |ws| == |segs| && forall i :: 0 <= i < |ws| ==> ws[i] == DecodeSegment(segs[i])
    ensures |ws| <= Occurrences(s, EntrySeparator) + 1
    ensures forall i :: 0 <= i < |ws| ==> FieldSeparator !in ws[i].time && FieldSeparator !in ws[i].amount
  {
    var segs := NonEmptyPieces(Split(s, EntrySeparator));
    SplitCount(s, EntrySeparator);
    seq(|segs|, i requires 0 <= i < |segs| => DecodeSegment(segs[i]))
  }

  /** Neither field of any entry holds a separator. */
  predicate SeparatorFree(ws: seq<WateringSchedule>)
  {
    forall i :: 0 <= i < |ws| ==>
      FieldSeparator !in ws[i].time && EntrySeparator !in ws[i].time &&
      FieldSeparator !in ws[i].amount && EntrySeparator !in ws[i].amount
  }

  /** The filter keeps a list without empty strings whole. */
  lemma {:induction false} NonEmptyPiecesKeepsAll(ps: seq<string>)
    requires forall k :: 0 <= k < |ps| ==> ps[k] != []
    ensures NonEmptyPieces(ps) == ps
    decreases |ps|
  {
    if |ps| > 0 {
      assert ps[0] != [];
      NonEmptyPiecesKeepsAll(ps[1..]);
      assert [ps[0]] + ps[1..] == ps;
    }
  }

  /** Decoding an encoded entry gives the entry back. */
  lemma DecodeEncodeEntry(w: WateringSchedule)
    requires FieldSeparator !in w.time && FieldSeparator !in w.amount
    ensures DecodeSegment(EncodeEntry(w)) == w
  {
    SplitAfterPiece(w.time, FieldSeparator, w.amount);
    SplitWithoutDelimiter(w.amount, FieldSeparator);
  }

  /** The `|`-separated segments of an encoding are the encoded entries, in
      list order. */
  lemma SegmentsOfEncoding(ws: seq<WateringSchedule>)
    requires |ws| > 0 && SeparatorFree(ws)
    ensures Split(EncodeSchedules(ws), EntrySeparator) == EncodedEntries(ws)
  {
    var es := EncodedEntries(ws);
    forall k | 0 <= k < |es|
      ensures EntrySeparator !in es[k]
    {
      assert es[k] == ws[k].time + [FieldSeparator] + ws[k].amount;
    }
    SplitJoin(es, EntrySeparator);
  }

  /** Round trip: decoding the encoding of a separator-free list gives the
      list back, the empty list included. */
  lemma DecodeEncode(ws: seq<WateringSchedule>)
    requires SeparatorFree(ws)
    ensures DecodeSchedules(EncodeSchedules(ws)) == ws
  {
    if |ws| == 0 {
      assert EncodeSchedules(ws) == "";
    } else {
      var es := EncodedEntries(ws);
      SegmentsOfEncoding(ws);
      forall k | 0 <= k < |es| ensures es[k] != [] {
        assert FieldSeparator in es[k];
      }
      NonEmptyPiecesKeepsAll(es);
      forall i | 0 <= i < |ws| ensures DecodeSegment(es[i]) == ws[i] {
        DecodeEncodeEntry(ws[i]);
      }
    }
  }

  /** The empty list encodes to the empty string, and the empty string decodes
      to the empty list. */
  lemma EmptyCodec()
    ensures EncodeSchedules([]) == ""
    ensures DecodeSchedules("") == []
  {
    assert Split("", EntrySeparator) == [""];
  }

  /** The decoder reads the stretches on either side of a `|` on their own. */
  lemma DecodeConcat(a: string, b: string)
    ensures DecodeSchedules(a + [EntrySeparator] + b) == DecodeSchedules(a) + DecodeSchedules(b)
  {
    PiecesAroundSeparator(a, b);
    MapOverConcat(DecodeSegment,
      NonEmptyPieces(Split(a, EntrySeparator)), NonEmptyPieces(Split(b, EntrySeparator)),
      DecodeSchedules(a + [EntrySeparator] + b), DecodeSchedules(a), DecodeSchedules(b));
  }

  lemma PiecesAroundSeparator(a: string, b: string)
    ensures NonEmptyPieces(Split(a + [EntrySeparator] + b, EntrySeparator)) ==
      NonEmptyPieces(Split(a, EntrySeparator)) + NonEmptyPieces(Split(b, EntrySeparator))
  {
    SplitConcat(a, EntrySeparator, b);
    NonEmptyPiecesConcat(Split(a, EntrySeparator), Split(b, EntrySeparator));
  }

  /** Mapping `f` over two halves gives the halves of mapping it over the
      whole. */
  lemma MapOverConcat<A, B>(f: A -> B, sa: seq<A>, sb: seq<A>, ws: seq<B>, wa: seq<B>, wb: seq<B>)
    requires |ws| == |sa + sb| && forall i :: 0 <= i < |ws| ==> ws[i] == f((sa + sb)[i])
    requires |wa| == |sa| && forall i :: 0 <= i < |wa| ==> wa[i] == f(sa[i])
    requires |wb| == |sb| && forall i :: 0 <= i < |wb| ==> wb[i] == f(sb[i])
    ensures ws == wa + wb
  {
    forall i | 0 <= i < |ws|
      ensures ws[i] == (wa + wb)[i]
    {
      if i < |wa| {
        assert (sa + sb)[i] == sa[i];
      } else {
        assert (sa + sb)[i] == sb[i - |wa|];
      }
    }
  }

  /** A comma inside a field is not preserved: the entry comes back with two
      empty fields. */
  lemma CommaInFieldIsLost(w: WateringSchedule)
    requires EntrySeparator !in w.time && EntrySeparator !in w.amount
    requires FieldSeparator in w.time || FieldSeparator in w.amount
    ensures DecodeSchedules(EncodeSchedules([w])) == [WateringSchedule("", "")]
  {
    var e := EncodeEntry(w);
    assert EncodedEntries([w]) == [e];
    assert EncodeSchedules([w]) == e;
    SplitWithoutDelimiter(e, EntrySeparator);
    assert e != [];
    assert NonEmptyPieces([e]) == [e];
    OccurrencesConcat(w.time + [FieldSeparator], w.amount, FieldSeparator);
    OccurrencesConcat(w.time, [FieldSeparator], FieldSeparator);
    if FieldSeparator in w.time {
      OccurrencesPositive(w.time, FieldSeparator);
    } else {
      OccurrencesPositive(w.amount, FieldSeparator);
    }
    assert DecodeSegment(e) == WateringSchedule("", "");
  }

  // ---------------------------------------------------------------------------
  // Route templates and String.replace
  // ---------------------------------------------------------------------------

  // The lemmas below keep every concatenation grouped to the right, so that
  // no reasoning about regrouping has to happen next to `ReplaceAll`.

  /** Filling the placeholder `p` that follows already-filled text. */
  lemma {:induction false} FillNext(done: string, p: string, rest: string, v: string)
    requires '{' !in done && IsPlaceholder(p)
    requires ReplaceAll(rest, p, v) == rest
    ensures ReplaceAll(done + (p + rest), p, v) == done + (v + rest)
  {
    ReplaceSkips(done, p + rest, p, v);
    ReplaceHits(rest, p, v);
  }

  /** A `/` and a different placeholder survive the replacement of `p`. */
  lemma {:induction false} KeepSlot(q: string, tail: string, p: string, v: string)
    requires IsPlaceholder(q) && IsPlaceholder(p) && q != p
    requires ReplaceAll(tail, p, v) == tail
    ensures ReplaceAll("/" + (q + tail), p, v) == "/" + (q + tail)
  {
    ReplaceSkips("/", q + tail, p, v);
    ReplaceSkipsOtherPlaceholder(q, tail, p, v);
  }

  lemma {:induction false} FillLast(done: string, p: string, v: string)
    requires '{' !in done && IsPlaceholder(p)
    ensures ReplaceAll(done + (p + ""), p, v) == done + (v + "")
  {
    assert ReplaceAll("", p, v) == "";
    FillNext(done, p, "", v);
  }

  lemma {:induction false} FillBeforeOne(done: string, p: string, v: string, q1: string)
    requires '{' !in done && IsPlaceholder(p) && IsPlaceholder(q1) && q1 != p
    ensures ReplaceAll(done + (p + ("/" + (q1 + ""))), p, v) == done + (v + ("/" + (q1 + "")))
  {
    assert ReplaceAll("", p, v) == "";
    KeepSlot(q1, "", p, v);
    FillNext(done, p, "/" + (q1 + ""), v);
  }

  lemma {:induction false} FillBeforeTwo(done: string, p: string, v: string, q1: string, q2: string)
    requires '{' !in done && IsPlaceholder(p) && IsPlaceholder(q1) && IsPlaceholder(q2)
    requires q1 != p && q2 != p
    ensures ReplaceAll(done + (p + ("/" + (q1 + ("/" + (q2 + ""))))), p, v) ==
      done + (v + ("/" + (q1 + ("/" + (q2 + "")))))
  {
    assert ReplaceAll("", p, v) == "";
    KeepSlot(q2, "", p, v);
    KeepSlot(q1, "/" + (q2 + ""), p, v);
    FillNext(done, p, "/" + (q1 + ("/" + (q2 + ""))), v);
  }

  lemma {:induction false} FillBeforeThree(done: string, p: string, v: string, q1: string, q2: string, q3: string)
    requires '{' !in done && IsPlaceholder(p) && IsPlaceholder(q1) && IsPlaceholder(q2) && IsPlaceholder(q3)
    requires q1 != p && q2 != p && q3 != p
    ensures ReplaceAll(done + (p + ("/" + (q1 + ("/" + (q2 + ("/" + (q3 + ""))))))), p, v) ==
      done + (v + ("/" + (q1 + ("/" + (q2 + ("/" + (q3 + "")))))))
  {
    assert ReplaceAll("", p, v) == "";
    KeepSlot(q3, "", p, v);
    KeepSlot(q2, "/" + (q3 + ""), p, v);
    KeepSlot(q1, "/" + (q2 + ("/" + (q3 + ""))), p, v);
    FillNext(done, p, "/" + (q1 + ("/" + (q2 + ("/" + (q3 + ""))))), v);
  }

  lemma {:induction false} FillBeforeFour(done: string, p: string, v: string, q1: string, q2: string, q3: string, q4: string)
    requires '{' !in done && IsPlaceholder(p) && IsPlaceholder(q1) && IsPlaceholder(q2) && IsPlaceholder(q3)
    requires IsPlaceholder(q4) && q1 != p && q2 != p && q3 != p && q4 != p
    ensures ReplaceAll(done + (p + ("/" + (q1 + ("/" + (q2 + ("/" + (q3 + ("/" + (q4 + ""))))))))), p, v) ==
      done + (v + ("/" + (q1 + ("/" + (q2 + ("/" + (q3 + ("/" + (q4 + "")))))))))
  {
    assert ReplaceAll("", p, v) == "";
    KeepSlot(q4, "", p, v);
    KeepSlot(q3, "/" + (q4 + ""), p, v);
    KeepSlot(q2, "/" + (q3 + ("/" + (q4 + ""))), p, v);
    KeepSlot(q1, "/" + (q2 + ("/" + (q3 + ("/" + (q4 + ""))))), p, v);
    FillNext(done, p, "/" + (q1 + ("/" + (q2 + ("/" + (q3 + ("/" + (q4 + ""))))))), v);
  }

  /** Moving one filled value and its `/` into the finished prefix. */
  lemma Regroup(a: string, b: string, x: string)
    ensures a + (b + ("/" + x)) == (a + (b + "/")) + x
  {
  }

  lemma RegroupFour(a: string, b1: string, b2: string, b3: string, b4: string)
    ensures a + b1 + "/" + b2 + "/" + b3 + "/" + b4 ==
      a + (b1 + ("/" + (b2 + ("/" + (b3 + ("/" + (b4 + "")))))))
  {
  }

  lemma RegroupFive(a: string, b1: string, b2: string, b3: string, b4: string, b5: string)
    ensures a + b1 + "/" + b2 + "/" + b3 + "/" + b4 + "/" + b5 ==
      a + (b1 + ("/" + (b2 + ("/" + (b3 + ("/" + (b4 + ("/" + (b5 + "")))))))))
  {
  }

  lemma FlattenFour(a: string, b1: string, b2: string, b3: string, b4: string)
    ensures a + (b1 + "/") + (b2 + "/") + (b3 + "/") + (b4 + "") == a + b1 + "/" + b2 + "/" + b3 + "/" + b4
  {
  }

  lemma FlattenFive(a: string, b1: string, b2: string, b3: string, b4: string, b5: string)
    ensures a + (b1 + "/") + (b2 + "/") + (b3 + "/") + (b4 + "/") + (b5 + "") ==
      a + b1 + "/" + b2 + "/" + b3 + "/" + b4 + "/" + b5
  {
  }

  /** Replacing a placeholder leaves a brace-free start of the text alone. */
  lemma KeepsPrefix(s: string, prefix: string, p: string, v: string)
    requires |s| >= |prefix| && s[..|prefix|] == prefix
    requires '{' !in prefix && IsPlaceholder(p)
    ensures var r := ReplaceAll(s, p, v); |r| >= |prefix| && r[..|prefix|] == prefix
  {
    assert s == prefix + s[|prefix|..];
    ReplaceSkips(prefix, s[|prefix|..], p, v);
  }

  /** Route to the plants of one category: the fixed prefix followed by the
      name, whatever the name holds. */
  function CategoryRoute(categoryName: string): (r: string)
    ensures r == "plant_category_list/" + categoryName
  {
    FillCategoryRoute(PlantCategoryList.Route(), categoryName);
    ReplaceAll(PlantCategoryList.Route(), "{categoryName}", categoryName)
  }

  /** Route to the preference preset of a plant picked from a category; it
      always leads to the preset destination. */
  function PresetRoute(plant: PlantItem): (r: string)
    ensures |r| >= |PresetPrefix| && r[..|PresetPrefix|] == PresetPrefix
  {
    PresetPlaceholders();
    var r0 := PlantPreferencePreset.Route();
    assert r0[..|PresetPrefix|] == PresetPrefix;
    var r1 := ReplaceAll(r0, "{plantName}", plant.name);
    KeepsPrefix(r0, PresetPrefix, "{plantName}", plant.name);
    var r2 := ReplaceAll(r1, "{plantSpecies}", plant.species);
    KeepsPrefix(r1, PresetPrefix, "{plantSpecies}", plant.species);
    var r3 := ReplaceAll(r2, "{plantStatus}", plant.status);
    KeepsPrefix(r2, PresetPrefix, "{plantStatus}", plant.status);
    KeepsPrefix(r3, PresetPrefix, "{plantWaterAmount}", plant.waterAmount);
    ReplaceAll(r3, "{plantWaterAmount}", plant.waterAmount)
  }

  /** Route to the detail screen of a field task, schedules encoded inline; it
      always leads to the detail destination. */
  function DetailRoute(task: ScheduledTask): (r: string)
    ensures |r| >= |DetailPrefix| && r[..|DetailPrefix|] == DetailPrefix
  {
    DetailPlaceholders();
    var r0 := PlantDetail.Route();
    assert r0[..|DetailPrefix|] == DetailPrefix;
    var r1 := ReplaceAll(r0, "{plantName}", task.plantName);
    KeepsPrefix(r0, DetailPrefix, "{plantName}", task.plantName);
    var r2 := ReplaceAll(r1, "{plantId}", task.plantId);
    KeepsPrefix(r1, DetailPrefix, "{plantId}", task.plantId);
    var r3 := ReplaceAll(r2, "{days}", IntToDecimal(task.days));
    KeepsPrefix(r2, DetailPrefix, "{days}", IntToDecimal(task.days));
    var r4 := ReplaceAll(r3, "{waterPerDay}", task.waterPerDay);
    KeepsPrefix(r3, DetailPrefix, "{waterPerDay}", task.waterPerDay);
    KeepsPrefix(r4, DetailPrefix, "{wateringSchedules}", EncodeSchedules(task.wateringSchedules));
    ReplaceAll(r4, "{wateringSchedules}", EncodeSchedules(task.wateringSchedules))
  }

  lemma {:induction false} FillCategoryRoute(route: string, categoryName: string)
    requires route == "plant_category_list/" + "{categoryName}"
    ensures ReplaceAll(route, "{categoryName}", categoryName) == "plant_category_list/" + categoryName
  {
    var pat := "{categoryName}";
    assert route == "plant_category_list/" + (pat + "");
    ReplaceSkips("plant_category_list/", pat + "", pat, categoryName);
    ReplaceHits("", pat, categoryName);
  }

  /** With no `{` in the plant's fields, each placeholder of the preset route
      is replaced by its own field. */
  lemma PresetRouteShape(plant: PlantItem)
    requires '{' !in plant.name && '{' !in plant.species && '{' !in plant.status && '{' !in plant.waterAmount
    ensures PresetRoute(plant) ==
      "plant_preference_preset/" + plant.name + "/" + plant.species + "/" + plant.status + "/" + plant.waterAmount
  {
    PresetPlaceholders();
    FillFourSlots(PlantPreferencePreset.Route(), "plant_preference_preset/",
      "{plantName}", "{plantSpecies}", "{plantStatus}", "{plantWaterAmount}",
      plant.name, plant.species, plant.status, plant.waterAmount);
  }

  const PresetPrefix: string := "plant_preference_preset/"

  lemma PresetPlaceholders()
    ensures IsPlaceholder("{plantName}") && IsPlaceholder("{plantSpecies}")
    ensures IsPlaceholder("{plantStatus}") && IsPlaceholder("{plantWaterAmount}")
    ensures '{' !in PresetPrefix
  {
    assert IsPlaceholder("{plantName}");
    assert IsPlaceholder("{plantSpecies}");
    assert IsPlaceholder("{plantStatus}");
    assert IsPlaceholder("{plantWaterAmount}");
  }

  /** Four placeholders after a prefix and separated by `/`, filled one after
      the other. */
  lemma {:induction false} FillFourSlots(route: string, prefix: string,
    p1: string, p2: string, p3: string, p4: string,
    v1: string, v2: string, v3: string, v4: string)
    requires route == prefix + p1 + "/" + p2 + "/" + p3 + "/" + p4
    requires '{' !in prefix
    requires IsPlaceholder(p1) && IsPlaceholder(p2) && IsPlaceholder(p3) && IsPlaceholder(p4)
    requires p1 != p2 && p1 != p3 && p1 != p4 && p2 != p3 && p2 != p4 && p3 != p4
    requires '{' !in v1 && '{' !in v2 && '{' !in v3 && '{' !in v4
    ensures ReplaceAll(ReplaceAll(ReplaceAll(ReplaceAll(route, p1, v1), p2, v2), p3, v3), p4, v4) ==
      prefix + v1 + "/" + v2 + "/" + v3 + "/" + v4
  {
    RegroupFour(prefix, p1, p2, p3, p4);
    var r4 := "/" + (p4 + "");
    var r3 := "/" + (p3 + r4);
    FillBeforeThree(prefix, p1, v1, p2, p3, p4);
    Regroup(prefix, v1, p2 + r3);
    var d1 := prefix + (v1 + "/");
    FillBeforeTwo(d1, p2, v2, p3, p4);
    Regroup(d1, v2, p3 + r4);
    var d2 := d1 + (v2 + "/");
    FillBeforeOne(d2, p3, v3, p4);
    Regroup(d2, v3, p4 + "");
    var d3 := d2 + (v3 + "/");
    FillLast(d3, p4, v4);
    FlattenFour(prefix, v1, v2, v3, v4);
  }

  /** No `{` appears in an encoding whose fields have none. */
  lemma EncodingHasNoBrace(ws: seq<WateringSchedule>)
    requires forall i :: 0 <= i < |ws| ==> '{' !in ws[i].time && '{' !in ws[i].amount
    ensures '{' !in EncodeSchedules(ws)
  {
    var es := EncodedEntries(ws);
    forall k | 0 <= k < |es| ensures '{' !in es[k] {
      assert es[k] == ws[k].time + [FieldSeparator] + ws[k].amount;
    }
    JoinAvoids(es, EntrySeparator, '{');
  }

  lemma {:induction false} JoinAvoids(parts: seq<string>, d: char, c: char)
    requires c != d && forall k :: 0 <= k < |parts| ==> c !in parts[k]
    ensures c !in Join(parts, d)
    decreases |parts|
  {
    if |parts| > 1 {
      JoinAvoids(parts[1..], d, c);
    }
  }

  /** With no `{` in the task's text fields, the detail route is its five
      arguments in order, separated by `/`. */
  lemma DetailRouteShape(task: ScheduledTask)
    requires '{' !in task.plantName && '{' !in task.plantId && '{' !in task.waterPerDay
    requires forall i :: 0 <= i < |task.wateringSchedules| ==>
      '{' !in task.wateringSchedules[i].time && '{' !in task.wateringSchedules[i].amount
    ensures DetailRoute(task) ==
      "plant_detail/" + task.plantName + "/" + task.plantId + "/" + IntToDecimal(task.days) + "/" +
      task.waterPerDay + "/" + EncodeSchedules(task.wateringSchedules)
  {
    EncodingHasNoBrace(task.wateringSchedules);
    DetailPlaceholders();
    FillFiveSlots(PlantDetail.Route(), "plant_detail/",
      "{plantName}", "{plantId}", "{days}", "{waterPerDay}", "{wateringSchedules}",
      task.plantName, task.plantId, IntToDecimal(task.days), task.waterPerDay,
      EncodeSchedules(task.wateringSchedules));
  }

  const DetailPrefix: string := "plant_detail/"

  lemma DetailPlaceholders()
    ensures IsPlaceholder("{plantName}") && IsPlaceholder("{plantId}") && IsPlaceholder("{days}")
    ensures IsPlaceholder("{waterPerDay}") && IsPlaceholder("{wateringSchedules}")
    ensures '{' !in DetailPrefix
  {
    assert IsPlaceholder("{plantName}");
    assert IsPlaceholder("{plantId}");
    assert IsPlaceholder("{days}");
    assert IsPlaceholder("{waterPerDay}");
    assert IsPlaceholder("{wateringSchedules}");
  }

  /** Five placeholders after a prefix and separated by `/`, filled one after
      the other. */
  lemma {:induction false} FillFiveSlots(route: string, prefix: string,
    p1: string, p2: string, p3: string, p4: string, p5: string,
    v1: string, v2: string, v3: string, v4: string, v5: string)
    requires route == prefix + p1 + "/" + p2 + "/" + p3 + "/" + p4 + "/" + p5
    requires '{' !in prefix
    requires IsPlaceholder(p1) && IsPlaceholder(p2) && IsPlaceholder(p3) && IsPlaceholder(p4) && IsPlaceholder(p5)
    requires p1 != p2 && p1 != p3 && p1 != p4 && p1 != p5 && p2 != p3 && p2 != p4 && p2 != p5
    requires p3 != p4 && p3 != p5 && p4 != p5
    requires '{' !in v1 && '{' !in v2 && '{' !in v3 && '{' !in v4 && '{' !in v5
    ensures ReplaceAll(ReplaceAll(ReplaceAll(ReplaceAll(ReplaceAll(route, p1, v1), p2, v2), p3, v3), p4, v4), p5, v5) ==
      prefix + v1 + "/" + v2 + "/" + v3 + "/" + v4 + "/" + v5
  {
    RegroupFive(prefix, p1, p2, p3, p4, p5);
    var r5 := "/" + (p5 + "");
    var r4 := "/" + (p4 + r5);
    var r3 := "/" + (p3 + r4);
    FillBeforeFour(prefix, p1, v1, p2, p3, p4, p5);
    Regroup(prefix, v1, p2 + r3);
    var d1 := prefix + (v1 + "/");
    FillBeforeThree(d1, p2, v2, p3, p4, p5);
    Regroup(d1, v2, p3 + r4);
    var d2 := d1 + (v2 + "/");
    FillBeforeTwo(d2, p3, v3, p4, p5);
    Regroup(d2, v3, p4 + r5);
    var d3 := d2 + (v3 + "/");
    FillBeforeOne(d3, p4, v4, p5);
    Regroup(d3, v4, p5 + "");
    var d4 := d3 + (v4 + "/");
    FillLast(d4, p5, v5);
    FlattenFive(prefix, v1, v2, v3, v4, v5);
  }

  // ---------------------------------------------------------------------------
  // Route arguments and their defaults
  // ---------------------------------------------------------------------------

  /** A typed value in the argument bundle of a back-stack entry. */
  datatype ArgValue = StringArg(s: string) | IntArg(n: int)

  /** `backStackEntry.arguments`, which may be absent altogether. */
  type Arguments = Option<map<string, ArgValue>>

  /** `arguments?.getString(key) ?: ""`. */
  function StringArgOrEmpty(args: Arguments, key: string): (r: string)
    ensures (args.Some? && key in args.value && args.value[key].StringArg?) ==> r == args.value[key].s
    ensures !(args.Some? && key in args.value && args.value[key].StringArg?) ==> r == ""
  {
    match args
    case None => ""
    case Some(m) => if key in m && m[key].StringArg? then m[key].s else ""
  }

  /** `arguments?.getInt(key) ?: 0`; `getInt` itself answers 0 for a key it
      does not hold as an integer. */
  function IntArgOrZero(args: Arguments, key: string): (r: int)
    ensures (args.Some? && key in args.value && args.value[key].IntArg?) ==> r == args.value[key].n
    ensures !(args.Some? && key in args.value && args.value[key].IntArg?) ==> r == 0
  {
    match args
    case None => 0
    case Some(m) => if key in m && m[key].IntArg? then m[key].n else 0
  }

  /** The argument of the category-list destination: the name the bundle
      holds, or "" without one. */
  function CategoryNameArg(args: Arguments): (name: string)
    ensures args.None? ==> name == ""
    ensures args.Some? && "categoryName" in args.value && args.value["categoryName"].StringArg? ==>
      name == args.value["categoryName"].s
  {
    StringArgOrEmpty(args, "categoryName")
  }

  /** The task the detail destination builds from its arguments. With no
      bundle every field takes its default and the schedule list is empty; no
      decoded schedule field ever holds a comma. */
  function DetailTask(args: Arguments): (t: ScheduledTask)
    ensures args.None? ==> t == ScheduledTask("", "", 0, "", [])
    ensures forall i :: 0 <= i < |t.wateringSchedules| ==>
      FieldSeparator !in t.wateringSchedules[i].time && FieldSeparator !in t.wateringSchedules[i].amount
  {
    EmptyCodec();
    ScheduledTask(
      StringArgOrEmpty(args, "plantName"),
      StringArgOrEmpty(args, "plantId"),
      IntArgOrZero(args, "days"),
      StringArgOrEmpty(args, "waterPerDay"),
      DecodeSchedules(StringArgOrEmpty(args, "wateringSchedules")))
  }

  /** The plant the preference-preset destination builds from its arguments;
      with no bundle every field is "". */
  function PresetPlant(args: Arguments): (plant: PlantItem)
    ensures args.None? ==> plant == PlantItem("", "", "", "")
  {
    PlantItem(
      StringArgOrEmpty(args, "plantName"),
      StringArgOrEmpty(args, "plantSpecies"),
      StringArgOrEmpty(args, "plantStatus"),
      StringArgOrEmpty(args, "plantWaterAmount"))
  }

  /** The arguments the preset route carries for a plant. */
  function PresetArgs(plant: PlantItem): map<string, ArgValue>
  {
    map[
      "plantName" := StringArg(plant.name),
      "plantSpecies" := StringArg(plant.species),
      "plantStatus" := StringArg(plant.status),
      "plantWaterAmount" := StringArg(plant.waterAmount)]
  }

  /** The preset screen rebuilds the very plant that the category list sent,
      whatever its fields hold. */
  lemma PresetPlantRoundTrip(plant: PlantItem)
    ensures PresetPlant(Some(PresetArgs(plant))) == plant
  {
  }

  /** The arguments the detail route carries for a task. */
  function DetailArgs(task: ScheduledTask): map<string, ArgValue>
  {
    map[
      "plantName" := StringArg(task.plantName),
      "plantId" := StringArg(task.plantId),
      "days" := IntArg(task.days),
      "waterPerDay" := StringArg(task.waterPerDay),
      "wateringSchedules" := StringArg(EncodeSchedules(task.wateringSchedules))]
  }

  /** The detail screen rebuilds the very task that the field screen sent,
      when no schedule field holds a separator. */
  lemma DetailTaskRoundTrip(task: ScheduledTask)
    requires SeparatorFree(task.wateringSchedules)
    ensures DetailTask(Some(DetailArgs(task))) == task
  {
    DetailArgsLookups(task);
    DecodeEncode(task.wateringSchedules);
  }

  lemma DetailArgsLookups(task: ScheduledTask)
    ensures var args := Some(DetailArgs(task));
      StringArgOrEmpty(args, "plantName") == task.plantName &&
      StringArgOrEmpty(args, "plantId") == task.plantId &&
      IntArgOrZero(args, "days") == task.days &&
      StringArgOrEmpty(args, "waterPerDay") == task.waterPerDay &&
      StringArgOrEmpty(args, "wateringSchedules") == EncodeSchedules(task.wateringSchedules)
  {
  }
}
