/** Who completes a resident session, as the worker server sees it. */
module ResidentSessions {
  /** An owned session is completed by disposing of it; promotion makes it resident. */
  datatype Ownership = Owned | Promoting | Resident | PromotionUnknown
}
