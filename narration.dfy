/** The progress narration of a scrape. The program renders each line as a
    template string (numbers in decimal, dates with `toISOString`); the model
    keeps the structured content of each line and does not render it. */
module Narration {
  import opened Common

  /** One call of the scraper's `log` callback. */
  datatype LogLine =
    | LoadingSession(sessionUsername: string)      // "[Scraper] Loading session for <u>..."
    | GettingProfile(username: string)             // "[Scraper] Getting profile for <u>..."
    | ProfileRetrieved(fullName: string, username: string)
    | FetchingPosts
    | SkippingPinned(postNumber: nat, shortcode: string)
    | PostSeen(postNumber: nat, shortcode: string, date: Option<int>)
    | AfterDateTo(consecutive: nat)
    | StopAfterDateTo                              // "4 consecutive posts after dateTo, stopping"
    | BeforeDateFrom(consecutive: nat)
    | StopBeforeDateFrom                           // "4 consecutive posts before dateFrom, stopping"
    | PostLimitReached                             // "Reached 100 posts limit"
    | SkippedPinnedTotal(count: nat)
    | Done(postCount: nat)                         // "Done! Scraped <n> posts"

  /** The message text of a `ScrapeEvent` emitted by the scrape mutation. */
  datatype Message =
    | Starting(username: string)                   // "Starting scrape for @<u>..."
    | Initializing                                 // "Initializing scraper..."
    | Relayed(line: LogLine)                       // a scraper log line, relayed as is
    | ProfileFetched(fullName: string, username: string)  // "Profile retrieved: <name> (@<u>)"
    | SavingProfile                                // "Saving influencer profile to database..."
    | SavingPosts(total: nat)                      // "Saving <n> posts..."
    | Saved(done: nat, total: nat)                 // "Saved <i>/<n> posts"
    | Succeeded(count: nat)                        // "Successfully scraped <n> posts!"
    | Failed(error: string)                        // "Error: <message>"
}
