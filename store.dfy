/** The global client-side store of src/store.js: one shared record with the
    signed-in user, the appointment list and the health-data list. */
module ClientStore {
  import opened Entities

  class Store {
    var user: Option<User>
    var appointments: seq<Appointment>
    var healthData: seq<HealthRecord>

    /** The store's initial state. */
    constructor ()
      ensures user == None && appointments == [] && healthData == []
    {
      user := None;
      appointments := [];
      healthData := [];
    }

    /** `setUser`: replaces the user and nothing else. */
    method SetUser(u: Option<User>)
      modifies this
      ensures user == u
      ensures appointments == old(appointments) && healthData == old(healthData)
    {
      user := u;
    }

    /** `setAppointments`: replaces the appointment list and nothing else. */
    method SetAppointments(a: seq<Appointment>)
      modifies this
      ensures appointments == a
      ensures user == old(user) && healthData == old(healthData)
    {
      appointments := a;
    }

    /** `addHealthData`: appends one record; nothing is removed or de-duplicated. */
    method AddHealthData(d: HealthRecord)
      modifies this
      ensures healthData == old(healthData) + [d]
      ensures |healthData| == |old(healthData)| + 1
      ensures healthData[..|old(healthData)|] == old(healthData) && healthData[|healthData| - 1] == d
      ensures multiset(healthData) == multiset(old(healthData)) + multiset{d}
      ensures user == old(user) && appointments == old(appointments)
    {
      healthData := healthData + [d];
    }
  }
}
