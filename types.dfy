/** Record types shared by the services and the controller (types.ts). */
module Types {

  datatype Option<+T> = None | Some(value: T)

  datatype Result<+T, +E> = Success(value: T) | Failure(error: E)

  /** Subscription tier; FREE is capped per day, PAID is not. */
  datatype PlanType = FREE | PAID

  /** A signed-in identity. The avatar URL is not part of this model. */
  datatype User = User(id: string, name: string, email: string)

  /** Free-tier usage: how many captions were made on the day lastResetDate ("YYYY-MM-DD"). */
  datatype UserQuota = UserQuota(count: nat, lastResetDate: string)

  /** What the caption service hands back: the text and the model that produced it. */
  datatype CaptionResult = CaptionResult(text: string, model: string)

  /** One entry of the in-memory history, which is kept newest first. */
  datatype HistoryItem = HistoryItem(id: string, imageUrl: string, caption: string, modelUsed: string, timestamp: int)
}
