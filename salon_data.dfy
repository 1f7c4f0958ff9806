/** The catalog and appointment records of the salon application, and the seed
    data the pages fall back to when the browser store holds nothing. */
module SalonData {
  import opened Common

  datatype Review = Review(id: string, author: string, rating: int, comment: string)

  /** A bookable service; `duration` is in minutes. */
  datatype Service = Service(id: string, name: string, category: string, price: int, duration: int)

  datatype Stylist = Stylist(id: string, name: string, specialty: string, imageUrl: string,
                             bio: string, portfolio: seq<string>)

  datatype SalonStatus = Open | Closed

  datatype Salon = Salon(id: string, name: string, location: string, status: SalonStatus,
                         imageUrl: string, gallery: seq<string>, reviews: seq<Review>,
                         services: seq<Service>, stylists: seq<Stylist>)

  datatype AppointmentStatus = Upcoming | Completed | Cancelled

  /** An appointment record. `date` is a day number (see module Dates) and `time`
      the "HH:MM" text of the chosen slot. The declared record type has no
      duration field; the booking wizard writes one anyway and the dashboard
      reads it, so `duration` is `None` exactly when the record has no such field
      (every seed record) and `Some(minutes)` on records the wizard created. */
  datatype Appointment = Appointment(id: string, salonId: string, salonName: string,
                                     serviceNames: seq<string>, date: int, time: string,
                                     status: AppointmentStatus, cost: int, duration: Option<int>)

  /** The four seed salons. */
  const Salons: seq<Salon> := [
      Salon(
        id := "1", name := "Elegance Coiffure", location := "Almadies, Dakar", status := Open,
        imageUrl := "https://placehold.co/600x400.png",
        gallery := ["https://placehold.co/800x600.png", "https://placehold.co/800x600.png", "https://placehold.co/800x600.png"],
        reviews := [
          Review("r1", "Fatou Diop", 5, "Amazing service! My hair has never looked better."),
          Review("r2", "Moussa Gueye", 4, "Great place, very professional staff.")],
        services := [
          Service("s1", "Men's Haircut", "Coupes", 5000, 30),
          Service("s2", "Women's Cut & Style", "Coupes", 15000, 90),
          Service("s3", "Braiding", "Tresses", 20000, 240)],
        stylists := [
          Stylist("st1", "Aminata", "Coloring", "https://placehold.co/100x100.png",
            "A passionate colorist with 10 years of experience, specializing in balayage and vibrant color transformations.",
            ["https://placehold.co/600x800.png", "https://placehold.co/600x800.png", "https://placehold.co/600x800.png"]),
          Stylist("st2", "Ousmane", "Men's Cuts", "https://placehold.co/100x100.png",
            "Expert in modern and classic men's grooming. Precision cuts and sharp fades are my signature.",
            ["https://placehold.co/600x800.png", "https://placehold.co/600x800.png", "https://placehold.co/600x800.png"])]),
      Salon(
        id := "2", name := "Dakar Style Masters", location := "Plateau, Dakar", status := Open,
        imageUrl := "https://placehold.co/600x400.png",
        gallery := ["https://placehold.co/800x600.png", "https://placehold.co/800x600.png", "https://placehold.co/800x600.png"],
        reviews := [
          Review("r3", "Awa Fall", 5, "The best braids in town!")],
        services := [
          Service("s4", "Deep Conditioning Treatment", "Soins", 10000, 60),
          Service("s5", "Full Head Color", "Coloration", 25000, 180)],
        stylists := [
          Stylist("st3", "Khadija", "Braiding", "https://placehold.co/100x100.png",
            "Master braider with a gentle touch. From intricate cornrows to elegant updos, I bring your vision to life.",
            ["https://placehold.co/600x800.png", "https://placehold.co/600x800.png", "https://placehold.co/600x800.png"]),
          Stylist("st4", "Ibrahim", "Styling", "https://placehold.co/100x100.png",
            "Creative stylist who loves to craft unique and trendy looks for any occasion.",
            ["https://placehold.co/600x800.png", "https://placehold.co/600x800.png", "https://placehold.co/600x800.png"])]),
      Salon(
        id := "3", name := "Le Prestige Barber", location := "Mermoz, Dakar", status := Closed,
        imageUrl := "https://placehold.co/600x400.png",
        gallery := ["https://placehold.co/800x600.png", "https://placehold.co/800x600.png", "https://placehold.co/800x600.png"],
        reviews := [
          Review("r4", "Cheikh Bamba", 5, "Perfect fade every time.")],
        services := [
          Service("s1", "Men's Haircut", "Coupes", 6000, 45),
          Service("s6", "Beard Trim", "Coupes", 3000, 20)],
        stylists := [
          Stylist("st5", "Moussa", "Barbering", "https://placehold.co/100x100.png",
            "Dedicated barber focused on clean lines and a perfect finish. Your beard is in good hands.",
            ["https://placehold.co/600x800.png", "https://placehold.co/600x800.png", "https://placehold.co/600x800.png"])]),
      Salon(
        id := "4", name := "Femme Chic", location := "Fann, Dakar", status := Open,
        imageUrl := "https://placehold.co/600x400.png",
        gallery := ["https://placehold.co/800x600.png", "https://placehold.co/800x600.png", "https://placehold.co/800x600.png"],
        reviews := [
          Review("r5", "Mariama Ba", 4, "Good service, but a bit pricey."),
          Review("r6", "Sophie Gomis", 5, "I love my new hairstyle! Thank you!")],
        services := [
          Service("s2", "Women's Cut & Style", "Coupes", 18000, 90),
          Service("s7", "Relaxer", "Défrisage", 12000, 120)],
        stylists := [
          Stylist("st6", "Fatima", "Styling", "https://placehold.co/100x100.png",
            "I believe in healthy hair first. Let's create a style that's not only beautiful but also sustainable.",
            ["https://placehold.co/600x800.png", "https://placehold.co/600x800.png", "https://placehold.co/600x800.png"]),
          Stylist("st7", "Ndeye", "Chemical Treatments", "https://placehold.co/100x100.png",
            "Specializing in relaxers, perms, and treatments to manage and beautify all hair types.",
            ["https://placehold.co/600x800.png", "https://placehold.co/600x800.png", "https://placehold.co/600x800.png"])])
  ]

  /** The three seed appointments (2024-08-15, 2024-07-20 and 2024-07-18 as day numbers). */
  const Appointments: seq<Appointment> := [
    Appointment("appt1", "1", "Elegance Coiffure", ["Women's Cut & Style"], 19950, "14:00", Upcoming, 15000, None),
    Appointment("appt2", "2", "Dakar Style Masters", ["Braiding"], 19924, "10:00", Completed, 20000, None),
    Appointment("appt3", "4", "Femme Chic", ["Relaxer"], 19922, "11:30", Cancelled, 12000, None)
  ]

  /** No two services of a catalog share an id. */
  predicate UniqueServiceIds(services: seq<Service>) {
    forall i, j :: 0 <= i < j < |services| ==> services[i].id != services[j].id
  }

  /** Seed salon ids are pairwise distinct. */
  lemma SeedSalonIdsDistinct()
    ensures forall i, j :: 0 <= i < j < |Salons| ==> Salons[i].id != Salons[j].id
  {
  }

  /** Within each seed salon the service ids are distinct ... */
  lemma SeedServiceIdsDistinctPerSalon()
    ensures forall k :: 0 <= k < |Salons| ==> UniqueServiceIds(Salons[k].services)
  {
  }

  /** ... but ids are reused across salons with a different price and duration,
      so a service is identified only within its salon. */
  lemma SeedServiceIdsReusedAcrossSalons()
    ensures Salons[0].services[0].id == Salons[2].services[0].id == "s1"
    ensures Salons[0].services[0].price != Salons[2].services[0].price
    ensures Salons[0].services[0].duration != Salons[2].services[0].duration
    ensures Salons[0].services[1].id == Salons[3].services[0].id == "s2"
    ensures Salons[0].services[1].price != Salons[3].services[0].price
  {
  }

  /** Every seed service has a positive price and a positive duration. */
  lemma SeedServicesPositive()
    ensures forall k, i :: 0 <= k < |Salons| && 0 <= i < |Salons[k].services| ==>
              Salons[k].services[i].price > 0 && Salons[k].services[i].duration > 0
  {
  }

  /** Every seed review rating is a star count 1..5. */
  lemma SeedRatingsInRange()
    ensures forall k, i :: 0 <= k < |Salons| && 0 <= i < |Salons[k].reviews| ==>
              1 <= Salons[k].reviews[i].rating <= 5
  {
  }

  /** The seed holds one appointment of each status. */
  lemma SeedOneOfEachStatus()
    ensures multiset(seq(|Appointments|, i requires 0 <= i < |Appointments| => Appointments[i].status))
         == multiset{Upcoming, Completed, Cancelled}
  {
    var st := seq(|Appointments|, i requires 0 <= i < |Appointments| => Appointments[i].status);
    assert st == [Upcoming, Completed, Cancelled];
  }

  /** The salon name copied into each seed appointment is the name of the salon it refers to. */
  lemma SeedSalonNamesMatch()
    ensures forall a :: a in Appointments ==>
              exists k :: 0 <= k < |Salons| && Salons[k].id == a.salonId && Salons[k].name == a.salonName
  {
    assert Salons[0].id == Appointments[0].salonId && Salons[0].name == Appointments[0].salonName;
    assert Salons[1].id == Appointments[1].salonId && Salons[1].name == Appointments[1].salonName;
    assert Salons[3].id == Appointments[2].salonId && Salons[3].name == Appointments[2].salonName;
  }

  /** No seed appointment carries a duration. */
  lemma SeedAppointmentsHaveNoDuration()
    ensures forall a :: a in Appointments ==> a.duration == None
  {
  }
}
