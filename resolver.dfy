/**
 * `identifyObject(labels:)`: six keyword groups, tried in a fixed order; a
 * group matches when some label contains one of its keywords; the first
 * matching group names the category.
 */
module Resolver {
  import opened Wrappers
  import opened Text
  import opened DetectedObjects

  /** The keywords the resolver looks for, per category. */
  function Keywords(c: DetectedObjectInfo): seq<string>
  {
    match c
    case DoorLock => ["lock", "combination lock", "padlock", "doorbell"]
    case WifiRouter => ["router", "modem", "hub", "power strip", "wireless"]
    case Thermostat => ["thermostat", "gauge", "thermometer", "control panel"]
    case KitchenAppliances => ["stove", "oven", "microwave", "toaster", "coffee", "espresso"]
    case TvEntertainment => ["television", "monitor", "screen", "remote"]
    case WasherDryer => ["washer", "dryer", "washing machine", "laundry"]
  }

  /** `keywords.contains` tried on one label: `label.contains(k1) || label.contains(k2) || ...`. */
  function AnyKeyword(name: string, keywords: seq<string>): bool
  {
    if keywords == [] then false
    else Contains(name, keywords[0]) || AnyKeyword(name, keywords[1..])
  }

  /** `labels.contains(where: ...)` for one keyword group. */
  function AnyLabel(labels: seq<string>, keywords: seq<string>): bool
  {
    if labels == [] then false
    else AnyKeyword(labels[0], keywords) || AnyLabel(labels[1..], keywords)
  }

  /** Some label contains some keyword of the category's group. */
  ghost predicate GroupMatches(labels: seq<string>, c: DetectedObjectInfo)
  {
    exists l, k :: l in labels && k in Keywords(c) && Occurs(k, l)
  }

  /** `identifyObject(labels:)`. */
  function IdentifyObject(labels: seq<string>): Option<DetectedObjectInfo>
  {
    if AnyLabel(labels, Keywords(DoorLock)) then Some(DoorLock)
    else if AnyLabel(labels, Keywords(WifiRouter)) then Some(WifiRouter)
    else if AnyLabel(labels, Keywords(Thermostat)) then Some(Thermostat)
    else if AnyLabel(labels, Keywords(KitchenAppliances)) then Some(KitchenAppliances)
    else if AnyLabel(labels, Keywords(TvEntertainment)) then Some(TvEntertainment)
    else if AnyLabel(labels, Keywords(WasherDryer)) then Some(WasherDryer)
    else None
  }

  lemma {:induction false} AnyKeywordIsOccurs(name: string, keywords: seq<string>)
    ensures AnyKeyword(name, keywords) <==> exists k :: k in keywords && Occurs(k, name)
  {
    if keywords != [] {
      AnyKeywordIsOccurs(name, keywords[1..]);
      assert forall k :: k in keywords <==> k == keywords[0] || k in keywords[1..];
    }
  }

  lemma {:induction false} AnyLabelIsOccurs(labels: seq<string>, keywords: seq<string>)
    ensures AnyLabel(labels, keywords) <==> exists l, k :: l in labels && k in keywords && Occurs(k, l)
  {
    if labels != [] {
      AnyKeywordIsOccurs(labels[0], keywords);
      AnyLabelIsOccurs(labels[1..], keywords);
      assert forall l :: l in labels <==> l == labels[0] || l in labels[1..];
    }
  }

  /** The executable check of one group decides `GroupMatches`. */
  lemma AnyLabelIsGroupMatch(labels: seq<string>, c: DetectedObjectInfo)
    ensures AnyLabel(labels, Keywords(c)) <==> GroupMatches(labels, c)
  {
    AnyLabelIsOccurs(labels, Keywords(c));
  }

  /** The executable check decides `GroupMatches` for every group at once. */
  lemma GroupsDecided(labels: seq<string>)
    ensures forall d: DetectedObjectInfo :: AnyLabel(labels, Keywords(d)) <==> GroupMatches(labels, d)
  {
    AnyLabelIsGroupMatch(labels, DoorLock);
    AnyLabelIsGroupMatch(labels, WifiRouter);
    AnyLabelIsGroupMatch(labels, Thermostat);
    AnyLabelIsGroupMatch(labels, KitchenAppliances);
    AnyLabelIsGroupMatch(labels, TvEntertainment);
    AnyLabelIsGroupMatch(labels, WasherDryer);
  }

  /** The group of `c` matches and no group declared before it does. */
  ghost predicate FirstMatch(labels: seq<string>, c: DetectedObjectInfo)
  {
    GroupMatches(labels, c) && forall d: DetectedObjectInfo :: d.Index() < c.Index() ==> !GroupMatches(labels, d)
  }

  /** The resolver returns exactly the first category, in declaration order, whose group matches. */
  lemma IdentifyObjectIsFirstMatch(labels: seq<string>, c: DetectedObjectInfo)
    ensures IdentifyObject(labels) == Some(c) <==> FirstMatch(labels, c)
  {
    GroupsDecided(labels);
  }

  /** The resolver finds nothing exactly when no name contains any keyword of any group. */
  lemma IdentifyObjectNone(labels: seq<string>)
    ensures IdentifyObject(labels) == None <==> forall c: DetectedObjectInfo :: !GroupMatches(labels, c)
  {
    GroupsDecided(labels);
  }

  /** No labels, no category. */
  lemma NoLabelsNoCategory()
    ensures IdentifyObject([]) == None
  {
  }

  /** A name containing "lock" yields doorLock whatever the other labels are. */
  lemma LockWins(labels: seq<string>, l: string)
    requires l in labels && Occurs("lock", l)
    ensures IdentifyObject(labels) == Some(DoorLock)
  {
    AnyLabelIsGroupMatch(labels, DoorLock);
    assert "lock" in Keywords(DoorLock);
  }

  /** Rule order: names matching both the router group and the lock group resolve to doorLock. */
  lemma RouterLockIsDoorLock(labels: seq<string>)
    requires GroupMatches(labels, WifiRouter) && GroupMatches(labels, DoorLock)
    ensures IdentifyObject(labels) == Some(DoorLock)
  {
    IdentifyObjectIsFirstMatch(labels, DoorLock);
  }

  /** An instance of the rule order: "router lock" matches the router group and still resolves to doorLock. */
  lemma RouterLockExample()
    ensures GroupMatches(["router lock"], WifiRouter)
    ensures IdentifyObject(["router lock"]) == Some(DoorLock)
  {
    assert OccursAt("router", "router lock", 0);
    assert "router" in Keywords(WifiRouter);
    assert OccursAt("lock", "router lock", 7);
    LockWins(["router lock"], "router lock");
  }

  /** Matching is by substring: a clock name contains "lock" and resolves to doorLock. */
  lemma ClockIsDoorLock()
    ensures IdentifyObject(["wall clock"]) == Some(DoorLock)
  {
    assert OccursAt("lock", "wall clock", 6);
    LockWins(["wall clock"], "wall clock");
  }

  /**
   * The door-lock group behaves as if it held only "lock" and "doorbell":
   * "combination lock" and "padlock" both contain "lock".
   */
  lemma DoorLockGroupReduces(labels: seq<string>)
    ensures GroupMatches(labels, DoorLock) <==>
      exists l :: l in labels && (Occurs("lock", l) || Occurs("doorbell", l))
  {
    if GroupMatches(labels, DoorLock) {
      var l, k :| l in labels && k in Keywords(DoorLock) && Occurs(k, l);
      if k == "combination lock" {
        assert OccursAt("lock", k, 12);
        OccursTransitive("lock", k, l);
      } else if k == "padlock" {
        assert OccursAt("lock", k, 3);
        OccursTransitive("lock", k, l);
      }
      assert Occurs("lock", l) || Occurs("doorbell", l);
    }
    if exists l :: l in labels && (Occurs("lock", l) || Occurs("doorbell", l)) {
      var l :| l in labels && (Occurs("lock", l) || Occurs("doorbell", l));
      assert "lock" in Keywords(DoorLock) && "doorbell" in Keywords(DoorLock);
    }
  }

  /**
   * Only which labels occur matters: reordering or duplicating labels does
   * not change the result.
   */
  lemma DependsOnlyOnLabelSet(labels: seq<string>, others: seq<string>)
    requires forall l :: l in labels <==> l in others
    ensures IdentifyObject(labels) == IdentifyObject(others)
  {
    GroupsDecided(labels);
    GroupsDecided(others);
  }
}
