/**
 * The fixed texts of the Spitfire script: what each record embeds, and the page the main
 * block cleans and parses.
 */
module SpitfireTexts {
  /** The general-information text (process_spitfire_data.py:178-183). */
  const GeneralInfoText: string :=
    "The Supermarine Spitfire is a World War 2-era "
    + "British fighter plane, retired in 1954. It is "
    + "automatically unlocked after reaching Player "
    + "Level 20 from Daily Challenges and found in the "
    + "Plane Hangar after Rebirth 7. It has 1 seating "
    + "capacity, 1 hull, 1 weapon, 1 engine, and the "
    + "utility 'Zoom In'."

  /** The full overview text (process_spitfire_data.py:204-243). */
  const FullOverviewText: string :=
    "The Spitfire is a heavily underrated plane in "
    + "War Tycoon, being under the assumption of being "
    + "extremely weak due to its status as a propeller "
    + "plane. The plane is famous for its rapid turn "
    + "rate even for its age, being able to out-turn "
    + "modern aircraft like the F-14 Tomcat and the "
    + "A-10 Warthog, making these jets extremely vulnerable "
    + "to the high-damage cannons on the Spitfire.\n"
    + "The armament diminishes shields, aircraft, and "
    + "even tanks, taking as little as two dives to "
    + "completely destroy a full HP MAUS, being the "
    + "tank with the highest health in the game, and "
    + "being very difficult for planes and helicopters "
    + "to destroy if not already low on HP. What makes "
    + "it even more overpowered is the very long fire "
    + "rate it has; it takes more than 10 seconds to "
    + "go into cooldown and recharges rapidly if you "
    + "stop firing the cannons before it hits the cooldown. "
    + "This allows for a practically infinite source "
    + "of ammo, and while your opponents are waiting "
    + "for their cooldown to finish, they become an "
    + "easy target to eliminate.\n"
    + "The only true weakness of the Spitfire is its "
    + "slow speed compared to the other aircraft and "
    + "its role as a propeller plane, not being able "
    + "to chase down enemies across the map without "
    + "veteran aim or vertically up into the sky, where "
    + "it will stall and lose altitude. It is important "
    + "that when in a dogfight with the Spitfire, you "
    + "have as low an altitude as possible and have "
    + "room to go full speed so you can climb up, fly "
    + "fast and dive back on the Spitfire when far enough "
    + "away from it.\n"
    + "Overall, this plane may take some practice to "
    + "use correctly, for it can easily be defeated "
    + "by modern aircraft, for it has unsurprisingly "
    + "low HP compared to them, but it's worth noting "
    + "that this plane is a large threat you'll need "
    + "to confront in the skies.\n"
    + "Stats\n"
    + "Firepower\n"
    + "Armament\n"
    + "Damage Per Shot (Non-Upgraded)\n"
    + "Damage Per Shot (Tier 1)\n"
    + "Damage Per Shot (Tier 2)\n"
    + "Damage Per Shot (Tier 3)\n"
    + "20mm Cannons\n"
    + "40 Damage\n"
    + "44 Damage\n"
    + "48 Damage\n"
    + "52 Damage\n"
    + ".303 Browning Machine Gun\n"
    + "20 Damage\n"
    + "22 Damage\n"
    + "24 Damage\n"
    + "26 Damage\n"
    + "Speed\n"
    + "Speed (Non-Upgraded)\n"
    + "Speed (Tier 1)\n"
    + "Speed (Tier 2)\n"
    + "Speed (Tier 3)\n"
    + "205 MPH\n"
    + "225 MPH\n"
    + "246 MPH\n"
    + "266 MPH\n"
    + "Health\n"
    + "Health (Non-Upgraded)\n"
    + "Health (Tier 1)\n"
    + "Health (Tier 2)\n"
    + "Health (Tier 3)\n"
    + "750 HP\n"
    + "825 HP\n"
    + "900 HP\n"
    + "975 HP\n"

  /** The concise overview (process_spitfire_data.py:258-264). */
  const ConciseOverviewText: string :=
    "The Spitfire is an underrated propeller plane "
    + "known for its rapid turn rate, out-turning modern "
    + "jets like F-14 and A-10. Its high-damage cannons "
    + "can destroy even a full HP MAUS in two dives. "
    + "It has a very long fire rate before cooldown, "
    + "allowing practically infinite ammo. Its main "
    + "weakness is slow speed compared to other aircraft, "
    + "making long chases or vertical climbs difficult, "
    + "and it has low HP compared to modern aircraft."

  /** The 20mm cannon text (process_spitfire_data.py:281). */
  const CannonsArmamentText: string :=
    "Equipped with two 20mm cannons. These high-damage "
    + "cannons are effective against shields, aircraft, "
    + "and tanks (can destroy a full HP MAUS in two "
    + "dives). They have a very long fire rate before "
    + "cooldown (more than 10 seconds) and recharge "
    + "rapidly."

  /** The machine gun text (process_spitfire_data.py:298). */
  const MachineGunArmamentText: string :=
    "Comes with four .303 Browning Machine Guns. Provides "
    + "additional damage."

  /** The speed statistics text (process_spitfire_data.py:314). */
  const SpeedText: string :=
    "Speed (Non-Upgraded): 205 MPH, Speed (Tier 1): "
    + "225 MPH, Speed (Tier 2): 246 MPH, Speed (Tier "
    + "3): 266 MPH."

  /** The health statistics text (process_spitfire_data.py:335). */
  const HealthText: string :=
    "Health (Non-Upgraded): 750 HP, Health (Tier 1): "
    + "825 HP, Health (Tier 2): 900 HP, Health (Tier "
    + "3): 975 HP."

  /** The 20mm cannon firepower text (process_spitfire_data.py:356). */
  const Firepower20mmText: string :=
    "20mm Cannons Damage Per Shot: Non-Upgraded: 40 "
    + "Damage, Tier 1: 44 Damage, Tier 2: 48 Damage, "
    + "Tier 3: 52 Damage."

  /** The .303 machine gun firepower text (process_spitfire_data.py:378). */
  const Firepower303Text: string :=
    ".303 Browning Machine Gun Damage Per Shot: Non-Upgraded: "
    + "20 Damage, Tier 1: 22 Damage, Tier 2: 24 Damage, "
    + "Tier 3: 26 Damage."

  /** The category text (process_spitfire_data.py:400). */
  const CategoryText: string :=
    "The Spitfire is classified under the 'Fighters' "
    + "category of planes."

  /** The page text the main block processes (process_spitfire_data.py:429-501). */
  const PageContent: string :=
    "\n"
    + "The Supermarine Spitfire is a World War 2-era "
    + "British fighter plane, retired from service in "
    + "the Royal Air Force in 1954.\n"
    + "It is automatically unlocked after reaching Player "
    + "Level 20 from the Daily Challenges and can be "
    + "found in the Plane Hangar after reaching Rebirth "
    + "7.\n"
    + "Overview\n"
    + "Spitfire\n"
    + "\n"
    + "The in-game render of the Spitfire.\n"
    + "General Information\n"
    + "Price\n"
    + "Player Level 20\n"
    + "(Requires Player Level 20 to be reached.)\n"
    + "Speed (Minimum)\n"
    + "Speed (Maximum)\n"
    + "205 MPH\n"
    + "266 MPH\n"
    + "\n"
    + "Health (Minimum)\n"
    + "Health (Maximum)\n"
    + "750 HP\n"
    + "975 HP\n"
    + "Armament\n"
    + "- 2x 20mm Cannons;\n"
    + "- 4x .303 Browning Machine Guns\n"
    + "Utility\n"
    + "- Zoom In\n"
    + "Seating Capacity\n"
    + "1\n"
    + "Hulls\n"
    + "Weapons\n"
    + "Engines\n"
    + "1\n"
    + "1\n"
    + "1\n"
    + "The Spitfire is a heavily underrated plane in "
    + "War Tycoon, being under the assumption of being "
    + "extremely weak due to its status as a propeller "
    + "plane. The plane is famous for its rapid turn "
    + "rate even for its age, being able to out-turn "
    + "modern aircraft like the F-14 Tomcat and the "
    + "A-10 Warthog, making these jets extremely vulnerable "
    + "to the high-damage cannons on the Spitfire.\n"
    + "The armament diminishes shields, aircraft, and "
    + "even tanks, taking as little as two dives to "
    + "completely destroy a full HP MAUS, being the "
    + "tank with the highest health in the game, and "
    + "being very difficult for planes and helicopters "
    + "to destroy if not already low on HP. What makes "
    + "it even more overpowered is the very long fire "
    + "rate it has; it takes more than 10 seconds to "
    + "go into cooldown and recharges rapidly if you "
    + "stop firing the cannons before it hits the cooldown. "
    + "This allows for a practically infinite source "
    + "of ammo, and while your opponents are waiting "
    + "for their cooldown to finish, they become an "
    + "easy target to eliminate.\n"
    + "The only true weakness of the Spitfire is its "
    + "slow speed compared to the other aircraft and "
    + "its role as a propeller plane, not being able "
    + "to chase down enemies across the map without "
    + "veteran aim or vertically up into the sky, where "
    + "it will stall and lose altitude. It is important "
    + "that when in a dogfight with the Spitfire, you "
    + "have as low an altitude as possible and have "
    + "room to go full speed so you can climb up, fly "
    + "fast and dive back on the Spitfire when far enough "
    + "away from it.\n"
    + "Overall, this plane may take some practice to "
    + "use correctly, for it can easily be defeated "
    + "by modern aircraft, for it has unsurprisingly "
    + "low HP compared to them, but it's worth noting "
    + "that this plane is a large threat you'll need "
    + "to confront in the skies.\n"
    + "Stats\n"
    + "Firepower\n"
    + "Armament\n"
    + "Damage Per Shot (Non-Upgraded)\n"
    + "Damage Per Shot (Tier 1)\n"
    + "Damage Per Shot (Tier 2)\n"
    + "Damage Per Shot (Tier 3)\n"
    + "20mm Cannons\n"
    + "40 Damage\n"
    + "44 Damage\n"
    + "48 Damage\n"
    + "52 Damage\n"
    + ".303 Browning Machine Gun\n"
    + "20 Damage\n"
    + "22 Damage\n"
    + "24 Damage\n"
    + "26 Damage\n"
    + "Speed\n"
    + "Speed (Non-Upgraded)\n"
    + "Speed (Tier 1)\n"
    + "Speed (Tier 2)\n"
    + "Speed (Tier 3)\n"
    + "205 MPH\n"
    + "225 MPH\n"
    + "246 MPH\n"
    + "266 MPH\n"
    + "Health\n"
    + "Health (Non-Upgraded)\n"
    + "Health (Tier 1)\n"
    + "Health (Tier 2)\n"
    + "Health (Tier 3)\n"
    + "750 HP\n"
    + "825 HP\n"
    + "900 HP\n"
    + "975 HP\n"
}
