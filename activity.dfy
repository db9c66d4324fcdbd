/** The activity pre-filter: each activity allows a fixed set of formality
    labels, and untagged items suit every activity (outfitEngine.js:413-419). */
module Activity {
  import opened Items
  import opened Seqs

  const ActivityFormalityMap: map<string, seq<string>> := map[
    "Casual" := ["Casual"],
    "Uni / Work" := ["Everyday", "Casual"],
    "Night Out / Date" := ["Smart", "Everyday"],
    "Formal Event" := ["Smart"],
    "Gym / Sport" := ["Athletic"]]

  /** The activity is one the map knows (`activity && MAP[activity]`). */
  predicate Recognised(activity: string)
  {
    activity != "" && activity in ActivityFormalityMap
  }

  /** `!item.formality || allowedFormalities.includes(item.formality)`. */
  predicate SuitsActivity(item: Item, activity: string)
    requires Recognised(activity)
  {
    item.formality == "" || item.formality in ActivityFormalityMap[activity]
  }

  /** Keep the items that suit a recognised activity; any other activity keeps
      everything (outfitEngine.js:432-438 and 597-602). */
  function ActivityFilter(items: seq<Item>, activity: string): (r: seq<Item>)
    ensures IsSubsequence(r, items)
    ensures !Recognised(activity) ==> r == items
    ensures Recognised(activity) ==>
              forall x :: multiset(r)[x] == if SuitsActivity(x, activity) then multiset(items)[x] else 0
  {
    SubsequenceReflexive(items);
    if Recognised(activity) then Filter(items, x => SuitsActivity(x, activity)) else items
  }

  /** Untagged items survive every activity filter, and every kept item is
      untagged or carries an allowed formality. */
  lemma ActivityFilterMembership(items: seq<Item>, activity: string, x: Item)
    ensures x in items && x.formality == "" ==> x in ActivityFilter(items, activity)
    ensures x in ActivityFilter(items, activity) ==> x in items
    ensures Recognised(activity) && x in ActivityFilter(items, activity) ==> SuitsActivity(x, activity)
  {
    var r := ActivityFilter(items, activity);
    assert x in r <==> multiset(r)[x] > 0;
    assert x in items <==> multiset(items)[x] > 0;
  }

  /** "Gym / Sport" keeps exactly the Athletic and the untagged items. */
  lemma GymKeepsAthletic(items: seq<Item>, x: Item)
    ensures x in ActivityFilter(items, "Gym / Sport") <==>
              x in items && (x.formality == "" || x.formality == "Athletic")
  {
    var r := ActivityFilter(items, "Gym / Sport");
    assert Recognised("Gym / Sport");
    assert x in r <==> multiset(r)[x] > 0;
    assert x in items <==> multiset(items)[x] > 0;
  }
}
