/**
 * The keyword life-event detector. `life_event_detector` in app.py and
 * `_detect_life_event` in agents/sales_agent.py are the same rule, so both are
 * modelled by `DetectLifeEvent`.
 */
module LifeEvents {
  import opened Text

  datatype LifeEvent = Marriage | NewHouse | MedicalEmergency | NoEvent

  const MarriageKeywords: seq<string> := ["married", "wedding", "marriage"]
  const HouseKeywords: seq<string> := ["house", "apartment", "moving", "property"]
  const MedicalKeywords: seq<string> := ["medical", "hospital", "emergency", "doctor"]

  /** The utterance, lowered, contains one of the keywords. */
  ghost predicate Mentions(utterance: string, keywords: seq<string>) {
    exists k :: k in keywords && Contains(Lower(utterance), k)
  }

  /**
   * The first tag, in the order marriage, new house, medical emergency, whose
   * keywords the lowered utterance mentions; no tag when none does.
   */
  function DetectLifeEvent(userQuery: string): (e: LifeEvent)
    ensures e == Marriage <==> Mentions(userQuery, MarriageKeywords)
    ensures e == NewHouse <==>
      !Mentions(userQuery, MarriageKeywords) && Mentions(userQuery, HouseKeywords)
    ensures e == MedicalEmergency <==>
      !Mentions(userQuery, MarriageKeywords) && !Mentions(userQuery, HouseKeywords)
      && Mentions(userQuery, MedicalKeywords)
    ensures e == NoEvent <==>
      !Mentions(userQuery, MarriageKeywords) && !Mentions(userQuery, HouseKeywords)
      && !Mentions(userQuery, MedicalKeywords)
  {
    var query := Lower(userQuery);
    if ContainsAny(query, MarriageKeywords) then Marriage
    else if ContainsAny(query, HouseKeywords) then NewHouse
    else if ContainsAny(query, MedicalKeywords) then MedicalEmergency
    else NoEvent
  }

  /** Detection ignores letter case: lowering the utterance first changes nothing. */
  lemma DetectIgnoresCase(userQuery: string)
    ensures DetectLifeEvent(Lower(userQuery)) == DetectLifeEvent(userQuery)
  {
    LowerIdempotent(userQuery);
  }

  /** A lowercase keyword written anywhere in an utterance, in any case, is mentioned by it. */
  lemma MentionedKeyword(a: string, k: string, b: string, keywords: seq<string>)
    requires k in keywords && Lower(k) == k
    ensures Mentions(a + k + b, keywords)
  {
    LowerConcat(a + k, b);
    LowerConcat(a, k);
    ContainsInfix(Lower(a), k, Lower(b));
  }

  /** Marriage outranks every other event: "my wedding ... hospital" is a marriage. */
  lemma MarriageOutranksAll(a: string, b: string)
    ensures DetectLifeEvent(a + "wedding" + b) == Marriage
  {
    assert Lower("wedding") == "wedding";
    MentionedKeyword(a, "wedding", b, MarriageKeywords);
  }

  /**
   * A house keyword outranks a medical one: any utterance mentioning "house" is
   * never a medical emergency, and without a marriage keyword it is a new house
   * (so "medical emergency at my house" gives the new-house tag).
   */
  lemma HouseOutranksMedical(a: string, b: string)
    ensures DetectLifeEvent(a + "house" + b) != MedicalEmergency
    ensures !Mentions(a + "house" + b, MarriageKeywords) ==> DetectLifeEvent(a + "house" + b) == NewHouse
  {
    assert Lower("house") == "house";
    MentionedKeyword(a, "house", b, HouseKeywords);
  }

  /** A medical keyword alone selects the medical-emergency tag. */
  lemma MedicalDetected(a: string, b: string)
    requires !Mentions(a + "hospital" + b, MarriageKeywords)
    requires !Mentions(a + "hospital" + b, HouseKeywords)
    ensures DetectLifeEvent(a + "hospital" + b) == MedicalEmergency
  {
    assert Lower("hospital") == "hospital";
    MentionedKeyword(a, "hospital", b, MedicalKeywords);
  }

  /** The opening "Hello" of every session carries no life event. */
  lemma HelloHasNoEvent()
    ensures DetectLifeEvent("Hello") == NoEvent
  {
    assert Lower("Hello") == "hello";
    assert "hello"[..5][1] != "house"[1];
    assert !Contains("hello"[1..], "house");
    assert !Contains("hello", "house");
  }
}
