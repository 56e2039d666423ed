/** The Observer demo: a news agency keeps an ordered list of
    subscribers and, on every publication, notifies each of them in list
    order. Object identity, which `unsubscribe` relies on, is an explicit
    `id` on every subscriber. */
module Observer {
  import opened JavaLang
  import opened Strings
  import Sequences

  /** The three concrete observers. */
  datatype Subscriber =
    | EmailSubscriber(id: nat, email: string)
    | SmsSubscriber(id: nat, phoneNumber: string)
    | AppNotificationSubscriber(id: nat, username: string)

  /** The subject: its subscribers in subscription order and the latest
      news, `Null` until something is published. */
  datatype NewsAgency = NewsAgency(observers: seq<Subscriber>, latestNews: Nullable<string>)

  const NewAgency: NewsAgency := NewsAgency([], Null)

  /** What a subscriber's line says before the news: the channel and the
      recipient. */
  function Channel(o: Subscriber): string {
    match o
    case EmailSubscriber(_, email) => "Email sent to " + email
    case SmsSubscriber(_, phone) => "SMS sent to " + phone
    case AppNotificationSubscriber(_, user) => "Push notification to " + user + "'s app"
  }

  /** `update(news)`: the line the subscriber prints. */
  function Update(o: Subscriber, news: Nullable<string>): string {
    Channel(o) + ": " + Text(news)
  }

  /** Every subscriber's line names its channel and recipient and ends with
      ": " and the news, which prints as "null" for a null reference. */
  lemma UpdateFormat(o: Subscriber, news: Nullable<string>)
    ensures EndsWith(Update(o, news), ": " + Text(news))
    ensures o.EmailSubscriber? ==> "Email sent to " + o.email <= Update(o, news)
    ensures o.SmsSubscriber? ==> "SMS sent to " + o.phoneNumber <= Update(o, news)
    ensures o.AppNotificationSubscriber? ==> "Push notification to " + o.username + "'s app" <= Update(o, news)
  {
    var tail := ": " + Text(news);
    assert Update(o, news) == Channel(o) + tail;
    EndsWithAppended(Channel(o), tail);
  }

  /** Whether `other` is the same object as `target`. */
  function SameObject(target: Subscriber): Subscriber -> bool {
    (other: Subscriber) => other.id == target.id
  }

  /** `subscribe`: appends the observer at the end, duplicates included. */
  function Subscribe(a: NewsAgency, o: Subscriber): (r: Printed<NewsAgency>)
    ensures |r.after.observers| == |a.observers| + 1
    ensures r.after.observers[..|a.observers|] == a.observers
    ensures r.after.observers[|a.observers|] == o
    ensures r.after.latestNews == a.latestNews
    ensures r.lines == ["New subscriber added!"]
  {
    Printed(a.(observers := a.observers + [o]), ["New subscriber added!"])
  }

  /** `unsubscribe`: removes the first entry that is the same object and
      keeps the others in order; a no-op on the list when it is absent. */
  function Unsubscribe(a: NewsAgency, o: Subscriber): (r: Printed<NewsAgency>)
    ensures (forall k | 0 <= k < |a.observers| :: a.observers[k].id != o.id) ==> r.after == a
    ensures forall i | Sequences.IsFirstMatch(a.observers, SameObject(o), i) ::
      r.after.observers == a.observers[..i] + a.observers[i + 1..]
    ensures r.after.latestNews == a.latestNews
    ensures r.lines == ["Subscriber removed!"]
  {
    Printed(a.(observers := Sequences.RemoveFirst(a.observers, SameObject(o))), ["Subscriber removed!"])
  }

  /** `notifyObservers`: one update per list entry, in list order, each
      given the latest news. */
  function NotifyObservers(a: NewsAgency): (lines: seq<string>)
    ensures |lines| == |a.observers|
    ensures forall k | 0 <= k < |lines| :: lines[k] == Update(a.observers[k], a.latestNews)
  {
    NotifyAll(a.observers, a.latestNews)
  }

  function NotifyAll(observers: seq<Subscriber>, news: Nullable<string>): (lines: seq<string>)
    ensures |lines| == |observers|
    ensures forall k | 0 <= k < |lines| :: lines[k] == Update(observers[k], news)
  {
    if observers == [] then [] else [Update(observers[0], news)] + NotifyAll(observers[1..], news)
  }

  const Banner: string := "\n--- Breaking News Published ---"

  /** `publishNews`: records the news (null included), prints the banner,
      then notifies every subscriber with it; the subscriber list is left
      alone. */
  function PublishNews(a: NewsAgency, news: Nullable<string>): (r: Printed<NewsAgency>)
    ensures r.after.observers == a.observers
    ensures r.after.latestNews == news
    ensures |r.lines| == |a.observers| + 1 && r.lines[0] == Banner
    ensures forall k | 0 <= k < |a.observers| :: r.lines[k + 1] == Update(a.observers[k], news)
  {
    var after := a.(latestNews := news);
    Printed(after, [Banner] + NotifyObservers(after))
  }

  /** Before anything is published, subscribers are handed the null news. */
  lemma NotifyBeforePublish(o: Subscriber)
    ensures NotifyObservers(Subscribe(NewAgency, o).after) == [Update(o, Null)]
    ensures Update(EmailSubscriber(0, "a@b"), Null) == "Email sent to a@b: null"
  {
  }

  // The demo's scenario.

  const Email: Subscriber := EmailSubscriber(1, "john@email.com")
  const Sms: Subscriber := SmsSubscriber(2, "+1234567890")
  const App: Subscriber := AppNotificationSubscriber(3, "john_doe")

  /** The demo's agency once email, SMS and app have subscribed. */
  function DemoAgency(): NewsAgency {
    Subscribe(Subscribe(Subscribe(NewAgency, Email).after, Sms).after, App).after
  }

  /** The subscribers are kept in subscription order, and the first
      publication reaches all three in that order. */
  lemma DemoFirstPublish(first: string)
    ensures DemoAgency().observers == [Email, Sms, App]
    ensures PublishNews(DemoAgency(), Ref(first)).lines
      == [Banner, Update(Email, Ref(first)), Update(Sms, Ref(first)), Update(App, Ref(first))]
  {
    assert DemoAgency().observers == [Email, Sms, App];
  }

  /** After the first publication and unsubscribing SMS, the next one
      reaches email and then app, and nobody else. */
  lemma DemoSecondPublish(first: string, second: string)
    ensures PublishNews(Unsubscribe(PublishNews(DemoAgency(), Ref(first)).after, Sms).after, Ref(second)).lines
      == [Banner, Update(Email, Ref(second)), Update(App, Ref(second))]
  {
    var published := PublishNews(DemoAgency(), Ref(first)).after;
    assert published.observers == [Email, Sms, App] by {
      DemoFirstPublish(first);
    }
    assert Sequences.IsFirstMatch(published.observers, SameObject(Sms), 1);
    assert Unsubscribe(published, Sms).after.observers == [Email, App];
  }

  /** Publishing null is accepted: it is stored, and every subscriber,
      whatever its kind, prints "null" for it. */
  lemma PublishNull(a: NewsAgency)
    ensures var r := PublishNews(a, Null);
      && r.after.latestNews == Null
      && forall k | 1 <= k < |r.lines| :: EndsWith(r.lines[k], ": null")
  {
    var r := PublishNews(a, Null);
    var tail := ": " + Text(Null);
    forall k | 1 <= k < |r.lines|
      ensures EndsWith(r.lines[k], tail)
    {
      assert r.lines[(k - 1) + 1] == Update(a.observers[k - 1], Null);
      UpdateFormat(a.observers[k - 1], Null);
    }
    assert tail == ": null";
  }

  /** A subscriber whose text before the news is `lead` prints `lead`
      followed by the news. */
  lemma LineAfterLead(o: Subscriber, lead: string, news: string)
    requires Channel(o) + ": " == lead
    ensures Update(o, Ref(news)) == lead + news
  {
  }

  /** The lines the demo's three subscribers print for a news item. */
  lemma DemoSubscriberLines(news: string)
    ensures Update(Email, Ref(news)) == "Email sent to john@email.com: " + news
    ensures Update(Sms, Ref(news)) == "SMS sent to +1234567890: " + news
    ensures Update(App, Ref(news)) == "Push notification to john_doe's app: " + news
  {
    LineAfterLead(Email, "Email sent to john@email.com: ", news);
    LineAfterLead(Sms, "SMS sent to +1234567890: ", news);
    assert Channel(App) == "Push notification to john_doe's app";
    LineAfterLead(App, "Push notification to john_doe's app: ", news);
  }
}
