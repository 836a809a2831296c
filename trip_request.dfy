/** src/models/TripRequest.py: the collected trip requirements. The model has
    no validators, so nothing constrains the group size, the budget or the
    order of the two dates. */
module Requests {
  import opened Wrappers

  datatype TripRequest = TripRequest(
    origin: string,
    destination: string,
    numPeople: int,
    startDate: string,
    endDate: string,
    budgetPerPerson: real,
    interests: Option<string> := None)

  /** Any values build a request: a zero or negative group, a negative budget
      and an end date before the start date are all accepted, and `interests`
      defaults to None. */
  lemma NoValidation(origin: string, destination: string, numPeople: int,
                     startDate: string, endDate: string, budget: real)
    ensures var r := TripRequest(origin, destination, numPeople, startDate, endDate, budget);
      r.numPeople == numPeople && r.budgetPerPerson == budget
      && r.startDate == startDate && r.endDate == endDate && r.interests == None
  {
  }
}
