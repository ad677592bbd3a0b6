/** The pure parts of src/services/ai.ts: the personality-dependent pieces
    of the system prompt, the offline reply generator and the request body
    sent to the chat model. */
module Chat {
  import opened Text
  import opened PetTypes

  // ----- system prompt selections -----

  /** `speciesInfo`; its fallback sentence is unreachable because every
      `PetType` has an entry. */
  function SpeciesBehaviour(s: Species): string {
    match s
    case Dog => "You are a loyal, energetic dog. You love playing, running, fetching. You are very social and expressive."
    case Cat => "You are an independent, curious cat. You enjoy napping, exploring, and may be a bit aloof but affectionate on your own terms."
    case Hamster => "You are a small, active hamster. You love running in wheels, hoarding food, and exploring tunnels."
    case Parrot => "You are a colorful, intelligent parrot. You can mimic sounds, love attention, and enjoy playing with toys."
    case Fish => "You live in water, swim gracefully, and enjoy your aquatic environment. You are calm and peaceful."
    case Rabbit => "You are a gentle, quick rabbit. You love hopping, eating vegetables, and can be either very social or shy."
    case Turtle => "You are a slow, wise turtle. You take your time, enjoy basking in the sun, and can retreat into your shell when needed."
    case Rat => "You are an intelligent, social rat. You are curious, active, and enjoy exploring your environment."
  }

  const CalmDescriptor := "(calm, peaceful, relaxed)"

  /** The bracketed gloss after the temperament; anything other than
      friendly, shy or aggressive reads as calm. */
  function TemperamentDescriptor(t: string): string {
    if t == "friendly" then "(enthusiastic, warm, loves people, very social)"
    else if t == "shy" then "(timid, cautious, takes time to warm up)"
    else if t == "aggressive" then "(guarded, assertive, protective)"
    else CalmDescriptor
  }

  /** How the example reply says the pet feels, with the same fallback. */
  function FeelingWord(t: string): string {
    if t == "friendly" then "great"
    else if t == "shy" then "a bit nervous but okay"
    else if t == "aggressive" then "alert and ready"
    else "peaceful and content"
  }

  /** The three temperaments with their own wording. */
  const NamedTemperaments: set<string> := {"friendly", "shy", "aggressive"}

  /** Any temperament outside friendly, shy and aggressive gets the calm
      wording, and those three get wordings of their own. */
  lemma CalmFallback(t: string)
    ensures TemperamentDescriptor(t) == CalmDescriptor <==> t !in NamedTemperaments
    ensures FeelingWord(t) == FeelingWord("calm") <==> t !in NamedTemperaments
  {
  }

  const EnergyDescriptors: seq<string> := [
    "Very low - you are sleepy and prefer resting",
    "Moderate - you have balanced energy",
    "High - you are quite active and playful",
    "Very high - you are extremely energetic and always ready for action"]

  /** The energy line, on the shared 25/50/75 split. */
  function EnergyDescriptor(level: int): string {
    if level <= 25 then EnergyDescriptors[0]
    else if level <= 50 then EnergyDescriptors[1]
    else if level <= 75 then EnergyDescriptors[2]
    else EnergyDescriptors[3]
  }

  /** Two levels get the same energy line exactly when the pet page shows
      them with the same activity label. */
  lemma EnergyFollowsActivity(a: int, b: int)
    ensures EnergyDescriptor(a) == EnergyDescriptor(b) <==> GetActivityText(a) == GetActivityText(b)
  {
  }

  function HumansLine(lovesHumans: bool): string {
    if lovesHumans then "You LOVE humans and enjoy their company"
    else "You are cautious around humans and need time to trust"
  }

  function PlayfulnessLine(playful: bool): string {
    if playful then "You LOVE playing games and having fun"
    else "You prefer calm, peaceful activities over active play"
  }

  /** The quirks line: present only when there are quirks. */
  function QuirksLine(quirks: seq<string>): (r: string)
    ensures r == "" <==> |quirks| == 0
  {
    if |quirks| > 0 then "- Special Quirks: " + Join(quirks, ", ") else ""
  }

  /** Every quirk appears in the quirks line. */
  lemma QuirksListed(quirks: seq<string>)
    ensures forall i :: 0 <= i < |quirks| ==> Contains(QuirksLine(quirks), quirks[i])
  {
    if |quirks| > 0 {
      JoinContains(quirks, ", ");
      var j := Join(quirks, ", ");
      var line := "- Special Quirks: " + j;
      forall i | 0 <= i < |quirks| ensures Contains(line, quirks[i]) {
        var k :| 0 <= k <= |j| - |quirks[i]| && OccursAt(j, quirks[i], k);
        assert line[18 + k..18 + k + |quirks[i]|] == j[k..k + |quirks[i]|];
        assert OccursAt(line, quirks[i], 18 + k);
      }
    }
  }

  /** Every element of a joined list occurs in the result. */
  lemma {:induction false} JoinContains(xs: seq<string>, sep: string)
    ensures forall i :: 0 <= i < |xs| ==> Contains(Join(xs, sep), xs[i])
  {
    if |xs| == 1 {
      assert OccursAt(Join(xs, sep), xs[0], 0);
    } else if |xs| > 1 {
      JoinContains(xs[1..], sep);
      var j := Join(xs, sep);
      var tail := Join(xs[1..], sep);
      var off := |xs[0]| + |sep|;
      assert j == xs[0] + sep + tail;
      forall i | 0 <= i < |xs| ensures Contains(j, xs[i]) {
        if i == 0 {
          assert j[0..|xs[0]|] == xs[0];
          assert OccursAt(j, xs[0], 0);
        } else {
          assert xs[1..][i - 1] == xs[i];
          var k :| 0 <= k <= |tail| - |xs[i]| && OccursAt(tail, xs[i], k);
          assert j[off + k..off + k + |xs[i]|] == tail[k..k + |xs[i]|];
          assert OccursAt(j, xs[i], off + k);
        }
      }
    }
  }

  // ----- the offline reply generator -----

  /** The kinds of reply, in the order the keyword checks run. */
  datatype Topic = Food | Play | Compliment | Affection | AskName | Wellbeing | Greeting | Farewell | Chatter

  function Rank(t: Topic): nat {
    match t
    case Food => 0
    case Play => 1
    case Compliment => 2
    case Affection => 3
    case AskName => 4
    case Wellbeing => 5
    case Greeting => 6
    case Farewell => 7
    case Chatter => 8
  }

  /** The substrings each check looks for. */
  function Keywords(t: Topic): seq<string> {
    match t
    case Food => ["food", "eat", "hungry", "treat"]
    case Play => ["play", "game", "fun"]
    case Compliment => ["cute", "beautiful", "pretty", "good"]
    case Affection => ["love", "like"]
    case AskName => ["name"]
    case Wellbeing => ["how are you", "how do you feel"]
    case Greeting => ["hi", "hello", "hey"]
    case Farewell => ["bye", "goodbye", "see you"]
    case Chatter => []
  }

  predicate Mentions(lower: string, t: Topic) {
    exists i :: 0 <= i < |Keywords(t)| && Contains(lower, Keywords(t)[i])
  }

  /** Whether a topic's own check succeeds: the food check also needs a
      favourite food, and the final default always applies. */
  predicate Fires(t: Topic, lower: string, hasFood: bool) {
    if t == Chatter then true
    else if t == Food then Mentions(lower, Food) && hasFood
    else Mentions(lower, t)
  }

  /** The chain of keyword checks on the lower-cased message. */
  function Classify(lower: string, hasFood: bool): Topic {
    if Mentions(lower, Food) && hasFood then Food
    else if Mentions(lower, Play) then Play
    else if Mentions(lower, Compliment) then Compliment
    else if Mentions(lower, Affection) then Affection
    else if Mentions(lower, AskName) then AskName
    else if Mentions(lower, Wellbeing) then Wellbeing
    else if Mentions(lower, Greeting) then Greeting
    else if Mentions(lower, Farewell) then Farewell
    else Chatter
  }

  /** The chosen topic is the first in check order whose check succeeds. */
  lemma ClassifyPriority(lower: string, hasFood: bool, t: Topic)
    ensures Classify(lower, hasFood) == t <==>
      Fires(t, lower, hasFood) && forall u :: Rank(u) < Rank(t) ==> !Fires(u, lower, hasFood)
  {
    var c := Classify(lower, hasFood);
    assert Fires(c, lower, hasFood);
    assert forall u :: Rank(u) < Rank(c) ==> !Fires(u, lower, hasFood);
    assert Rank(t) == Rank(c) ==> t == c;
  }

  /** The per-species action lists. */
  function Actions(s: Species): (r: seq<string>)
    ensures |r| > 0
  {
    match s
    case Dog => ["*wags tail excitedly*", "*barks happily*", "*tilts head*", "*pants*", "*jumps around*"]
    case Cat => ["*purrs*", "*meows*", "*stretches lazily*", "*flicks tail*", "*blinks slowly*"]
    case Hamster => ["*squeaks*", "*stuffs cheeks*", "*runs in wheel*", "*twitches whiskers*"]
    case Parrot => ["*ruffles feathers*", "*squawks*", "*bobs head*", "*whistles*"]
    case Fish => ["*blows bubbles*", "*swims in circles*", "*flicks fins*"]
    case Rabbit => ["*hops excitedly*", "*twitches nose*", "*flops over*", "*binkies*"]
    case Turtle => ["*slowly blinks*", "*retreats into shell*", "*stretches neck*"]
    case Rat => ["*squeaks*", "*grooms whiskers*", "*scurries around*", "*sniffs curiously*"]
  }

  /** How many replies the second random draw picks among. */
  function ReplyOptions(t: Topic): nat {
    if t == Food then 3 else if t == Chatter then 4 else 1
  }

  function WellbeingLine(temperament: string): string {
    match temperament
    case "friendly" => "I'm doing great! So happy to see you!"
    case "shy" => "I-I'm okay... thanks for asking..."
    case "aggressive" => "I'm fine. What do you want?"
    case "calm" => "I'm feeling peaceful and content."
    case _ => "I'm good!"
  }

  function GreetingLine(temperament: string): string {
    match temperament
    case "friendly" => "Hi there! So excited to see you!"
    case "shy" => "H-hello..."
    case "aggressive" => "Hey. What do you want?"
    case "calm" => "Hello, friend. Welcome."
    case _ => "Hello!"
  }

  /** The default replies; an unknown temperament uses the friendly ones. */
  function ChatterLines(temperament: string): (r: seq<string>)
    ensures |r| == 4
  {
    match temperament
    case "shy" => ["*peeks at you nervously*", "Um... okay...", "*hides a little*", "Y-yes..."]
    case "aggressive" => ["Hmph.", "I'm watching you.", "Don't get too comfortable.", "*glares*"]
    case "calm" => ["How peaceful.", "*relaxes contentedly*", "Life is good.", "*sighs happily*"]
    case _ => ["You're so fun to talk to!", "I'm so happy you're here!", "Can we be best friends?", "This is the best day ever!"]
  }

  /** The topic a message gets for a pet. */
  function TopicFor(p: Pet, message: string): Topic {
    Classify(ToLower(message), p.personality.favouriteFood != "")
  }

  /** `generateMockResponse`; the two `Math.random` draws are the floored
      indices `actionDraw` and `replyDraw`. */
  function MockResponse(p: Pet, message: string, actionDraw: int, replyDraw: int): string
    requires 0 <= actionDraw < |Actions(p.appearance.species)|
    requires 0 <= replyDraw < ReplyOptions(TopicFor(p, message))
  {
    var q := p.personality;
    var act := Actions(p.appearance.species)[actionDraw];
    var food := ToLower(q.favouriteFood);
    match TopicFor(p, message)
    case Food =>
      [ act + " Did someone say food? I love " + food + "!",
        "*perks up* Food?! Is it " + food + " time?",
        "Mmm, I could really go for some " + food + " right now!" ][replyDraw]
    case Play =>
      if q.playful then act + " Yes! Let's play! I love games!"
      else act + " Maybe later... I'm feeling a bit tired."
    case Compliment =>
      if q.temperament == "shy" then "*hides face* T-thank you... " + act
      else act + " Aww, thank you! You're so nice!"
    case Affection =>
      if q.lovesHumans then act + " I love you too! You're my favorite human!"
      else act + " *looks at you thoughtfully*"
    case AskName => act + " I'm " + q.name + "! Nice to meet you!"
    case Wellbeing => act + " " + WellbeingLine(q.temperament)
    case Greeting => act + " " + GreetingLine(q.temperament)
    case Farewell => act + " Bye bye! Come back soon!"
    case Chatter => act + " " + ChatterLines(q.temperament)[replyDraw]
  }

  /** The play reply depends on the species' action and the playful flag
      only. */
  lemma PlayReplyOnlyReadsPlayful(p: Pet, q: Pet, message: string, actionDraw: int)
    requires TopicFor(p, message) == Play && TopicFor(q, message) == Play
    requires p.appearance.species == q.appearance.species && p.personality.playful == q.personality.playful
    requires 0 <= actionDraw < |Actions(p.appearance.species)|
    ensures MockResponse(p, message, actionDraw, 0) == MockResponse(q, message, actionDraw, 0)
  {
  }

  /** A shy pet answers a compliment by hiding its face first. */
  lemma ShyComplimentHidesFace(p: Pet, message: string, actionDraw: int)
    requires TopicFor(p, message) == Compliment && p.personality.temperament == "shy"
    requires 0 <= actionDraw < |Actions(p.appearance.species)|
    ensures var r := MockResponse(p, message, actionDraw, 0);
      |r| >= 12 && r[..12] == "*hides face*"
  {
  }

  /** An unknown temperament chats like a friendly pet, but answers a
      greeting or "how are you" with its own generic line rather than the
      friendly one. */
  lemma UnknownTemperamentReplies(p: Pet, message: string, actionDraw: int, replyDraw: int)
    requires p.personality.temperament !in {"friendly", "shy", "aggressive", "calm"}
    requires 0 <= actionDraw < |Actions(p.appearance.species)|
    requires 0 <= replyDraw < ReplyOptions(TopicFor(p, message))
    ensures var f := p.(personality := p.personality.(temperament := "friendly"));
      TopicFor(f, message) == TopicFor(p, message) &&
      (TopicFor(p, message) == Chatter ==> MockResponse(p, message, actionDraw, replyDraw) == MockResponse(f, message, actionDraw, replyDraw)) &&
      (TopicFor(p, message) in {Wellbeing, Greeting} ==> MockResponse(p, message, actionDraw, replyDraw) != MockResponse(f, message, actionDraw, replyDraw))
  {
    var f := p.(personality := p.personality.(temperament := "friendly"));
    var act := Actions(p.appearance.species)[actionDraw];
    if TopicFor(p, message) == Wellbeing {
      assert MockResponse(p, message, actionDraw, replyDraw) == act + " " + "I'm good!";
      assert MockResponse(f, message, actionDraw, replyDraw) == act + " " + "I'm doing great! So happy to see you!";
      assert |act + " " + "I'm good!"| != |act + " " + "I'm doing great! So happy to see you!"|;
    } else if TopicFor(p, message) == Greeting {
      assert MockResponse(p, message, actionDraw, replyDraw) == act + " " + "Hello!";
      assert MockResponse(f, message, actionDraw, replyDraw) == act + " " + "Hi there! So excited to see you!";
      assert |act + " " + "Hello!"| != |act + " " + "Hi there! So excited to see you!"|;
    }
  }

  // ----- the request contents -----

  /** `ChatMessage.role`. */
  datatype Sender = UserSender | PetSender

  /** A chat history entry (its id and timestamp play no part here). */
  datatype ChatMessage = ChatMessage(role: Sender, content: string)

  /** The chat model's roles. */
  datatype Role = UserRole | ModelRole

  datatype Content = Content(role: Role, text: string)

  /** `history.slice(-10)`. */
  function RecentHistory(history: seq<ChatMessage>): (r: seq<ChatMessage>)
    ensures |r| == if |history| <= 10 then |history| else 10
    ensures r == history[|history| - |r|..]
  {
    if |history| <= 10 then history else history[|history| - 10..]
  }

  function RoleOf(s: Sender): Role {
    if s == PetSender then ModelRole else UserRole
  }

  function ToContent(m: ChatMessage): Content {
    Content(RoleOf(m.role), m.content)
  }

  /** The `contents` array: the system prompt as a user turn, the recent
      history with the pet's turns as model turns, then the new message. */
  function RequestContents(prompt: string, history: seq<ChatMessage>, message: string): (r: seq<Content>)
    ensures |r| == 2 + (if |history| <= 10 then |history| else 10)
    ensures r[0] == Content(UserRole, prompt) && r[|r| - 1] == Content(UserRole, message)
    ensures forall i :: 1 <= i < |r| - 1 ==>
      r[i].text == history[|history| - |r| + 1 + i].content
      && (r[i].role == ModelRole <==> history[|history| - |r| + 1 + i].role == PetSender)
  {
    var recent := RecentHistory(history);
    [Content(UserRole, prompt)] + seq(|recent|, i requires 0 <= i < |recent| => ToContent(recent[i])) + [Content(UserRole, message)]
  }

  /** The loop of `generatePetResponse` that pushes one entry per message. */
  method BuildContents(prompt: string, history: seq<ChatMessage>, message: string) returns (contents: seq<Content>)
    ensures contents == RequestContents(prompt, history, message)
  {
    var recent := RecentHistory(history);
    contents := [Content(UserRole, prompt)];
    for i := 0 to |recent|
      invariant |contents| == i + 1
      invariant contents[0] == Content(UserRole, prompt)
      invariant forall k :: 0 <= k < i ==> contents[k + 1] == ToContent(recent[k])
    {
      var msg := recent[i];
      if msg.role == PetSender {
        contents := contents + [Content(ModelRole, msg.content)];
      } else {
        contents := contents + [Content(UserRole, msg.content)];
      }
    }
    contents := contents + [Content(UserRole, message)];
  }
}
