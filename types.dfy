/** Entities of the app, after types/signal.ts, types/subscriber.ts,
    types/community.ts and types/market.ts. Timestamps are integer
    milliseconds since the epoch. Signal price levels are JavaScript numbers
    (reals here); the subscription price is a whole number of Naira. */
module Types {

  datatype Option<T> = None | Some(value: T)

  // types/signal.ts
  datatype SignalStatus = Pending | Win | Loss

  /** The result a signal is resolved to: "win" | "loss". */
  type Outcome = s: SignalStatus | s != Pending witness Win

  datatype SignalType = Free | Vip

  datatype Market = Crypto | Forex | Stocks

  datatype Direction = Buy | Sell

  datatype Signal = Signal(
    id: string,
    communityId: string,
    asset: string,
    signalType: SignalType,
    market: Market,
    direction: Direction,
    entryPrice: real,
    takeProfit: Option<real>,
    stopLoss: Option<real>,
    status: SignalStatus,
    createdAt: int)

  // types/subscriber.ts
  datatype SubscriptionStatus = Active | Expired

  /** The joined `users` row of a subscription. */
  datatype SubscriberUser = SubscriberUser(firstName: Option<string>, lastName: Option<string>, email: string)

  datatype Subscriber = Subscriber(
    id: string,
    userId: string,
    communityId: string,
    status: SubscriptionStatus,
    startDate: int,
    endDate: int,
    user: SubscriberUser)

  // types/community.ts; the status column holds "pending" or "active",
  // and any other text falls through every status check.
  datatype CommunityStatus = AwaitingApproval | Approved | OtherStatus(raw: string)

  datatype Community = Community(
    id: string,
    ownerId: string,
    name: string,
    description: Option<string>,
    status: CommunityStatus,
    subscriptionPrice: Option<int>)

  datatype CommunityStats = CommunityStats(
    communityId: string,
    totalSignals: int,
    wins: int,
    losses: int,
    winRate: int)

  // types/market.ts: one row of community_markets
  datatype MarketRow = MarketRow(communityId: string, market: Market)
}
